/**
 * The logger's object (clia/src/log/async_logger.cc): uniquely owned heap buffers moved between the current buffer, the
 * next one, `buffers_`, the writer's two spares and its batch. Each method is one atomic step of the protocol in
 * AsyncLog, and its contract says so; the locals of `sync_thread` are fields, since other threads run between its steps.
 */
module AsyncLogger {
  import opened Sequences
  import opened Checks
  import opened FixedBuffers
  import L = AsyncLog

  /** One call of the appender. The notice's text is the formatting of its count. */
  datatype Appended = Text(bytes: seq<char>) | DropNotice(count: nat)

  function AsAppended(c: L.Chunk): Appended
  {
    match c
    case Data(msgs) => Text(Flatten(msgs))
    case Notice(n) => DropNotice(n)
  }

  function AsAppendedAll(cs: seq<L.Chunk>): (r: seq<Appended>)
    ensures |r| == |cs|
  {
    seq(|cs|, k requires 0 <= k < |cs| => AsAppended(cs[k]))
  }

  /** The one place that owns a buffer. */
  datatype Place = Current | NextUp | Spare1 | Spare2 | InBuffers(k: nat) | InBatch(k: nat)

  ghost predicate Holds(b: FixedBuffer, v: L.Buf, capacity: nat)
    reads b, b.data
  {
    b.cur < b.data.Length == capacity && b.data[..b.cur] == v.Bytes()
  }

  ghost predicate HoldsOpt(b: FixedBuffer?, v: Option<L.Buf>, capacity: nat)
    reads b, if b == null then {} else {b.data}
  {
    (b == null <==> v.None?) && (b != null ==> Holds(b, v.value, capacity))
  }

  ghost predicate HoldsAll(bs: seq<FixedBuffer>, vs: seq<L.Buf>, capacity: nat)
    reads bs, set k | 0 <= k < |bs| :: bs[k].data
  {
    |bs| == |vs| && forall k :: 0 <= k < |bs| ==> Holds(bs[k], vs[k], capacity)
  }

  /** Places once everything that was full, and the current buffer after it, has gone to the writer. */
  ghost function Handed(places: map<FixedBuffer, Place>, count: nat): map<FixedBuffer, Place>
  {
    map b | b in places ::
      match places[b]
      case InBuffers(k) => InBatch(k)
      case Current => InBatch(if count > 0 then count - 1 else 0)
      case p => p
  }

  /** Every buffer in use has one place, and no two share storage. */
  ghost predicate PlacedAt(places: map<FixedBuffer, Place>, current: FixedBuffer, next: FixedBuffer?,
                           spare1: FixedBuffer?, spare2: FixedBuffer?, full: seq<FixedBuffer>, batch: seq<FixedBuffer>)
  {
    && (forall b, c :: b in places && c in places && b != c ==> b.data != c.data)
    && current in places && places[current] == Current
    && (next != null ==> next in places && places[next] == NextUp)
    && (spare1 != null ==> spare1 in places && places[spare1] == Spare1)
    && (spare2 != null ==> spare2 in places && places[spare2] == Spare2)
    && (forall k :: 0 <= k < |full| ==> full[k] in places && places[full[k]] == InBuffers(k))
    && (forall k :: 0 <= k < |batch| ==> batch[k] in places && places[batch[k]] == InBatch(k))
  }

  /** Handing everything over gives every buffer one place again. */
  lemma SwapPlaces(places: map<FixedBuffer, Place>, current: FixedBuffer, next: FixedBuffer?,
                   spare1: FixedBuffer, spare2: FixedBuffer?, full: seq<FixedBuffer>)
    requires PlacedAt(places, current, next, spare1, spare2, full, [])
    ensures spare1 in places && (spare2 != null ==> spare2 in places)
    ensures PlacedAt(Handed(places, |full| + 1)[spare1 := Current], spare1, next, null, spare2, [], full + [current])
    ensures next == null && spare2 != null ==>
      PlacedAt(Handed(places, |full| + 1)[spare1 := Current][spare2 := NextUp],
               spare1, spare2, null, null, [], full + [current])
  {
  }

  /** A full buffer goes to the end of the kept ones, and another that is not kept becomes current. */
  lemma RotatePlaces(places: map<FixedBuffer, Place>, current: FixedBuffer, next: FixedBuffer?, up: FixedBuffer,
                     spare1: FixedBuffer?, spare2: FixedBuffer?, full: seq<FixedBuffer>, batch: seq<FixedBuffer>)
    requires PlacedAt(places, current, next, spare1, spare2, full, batch)
    requires up == next || (up !in places && forall b :: b in places ==> b.data != up.data)
    ensures PlacedAt(places[current := InBuffers(|full|)][up := Current], up, null, spare1, spare2, full + [current], batch)
  {
  }

  /** Two buffers that nobody has become the spares. */
  lemma SparePlaces(places: map<FixedBuffer, Place>, current: FixedBuffer, next: FixedBuffer?,
                    b1: FixedBuffer, b2: FixedBuffer, full: seq<FixedBuffer>, batch: seq<FixedBuffer>)
    requires PlacedAt(places, current, next, null, null, full, batch) && b1.data != b2.data
    requires forall b :: b in places ==> b != b1 && b != b2 && b.data != b1.data && b.data != b2.data
    ensures PlacedAt(places[b1 := Spare1][b2 := Spare2], current, next, b1, b2, full, batch)
  {
  }

  lemma HoldsSnoc(bs: seq<FixedBuffer>, vs: seq<L.Buf>, b: FixedBuffer, v: L.Buf, capacity: nat)
    requires HoldsAll(bs, vs, capacity) && Holds(b, v, capacity)
    ensures HoldsAll(bs + [b], vs + [v], capacity)
  {
  }

  lemma HoldsSize(b: FixedBuffer, v: L.Buf, capacity: nat)
    requires Holds(b, v, capacity)
    ensures b.cur == v.Size() && b.cur < b.data.Length == capacity
  {
  }

  lemma HoldsPrefix(bs: seq<FixedBuffer>, vs: seq<L.Buf>, n: nat, capacity: nat)
    requires HoldsAll(bs, vs, capacity) && n <= |bs|
    ensures HoldsAll(bs[..n], vs[..n], capacity) && |bs| == |vs|
  {
  }

  lemma HoldsAt(bs: seq<FixedBuffer>, vs: seq<L.Buf>, k: nat, capacity: nat)
    requires HoldsAll(bs, vs, capacity) && k < |bs|
    ensures k < |vs| && Holds(bs[k], vs[k], capacity)
  {
  }

  lemma HoldsNone(capacity: nat)
    ensures HoldsAll([], [], capacity)
  {
  }

  lemma HoldsEmptySize(b: FixedBuffer, capacity: nat)
    requires Holds(b, L.EMPTY, capacity)
    ensures b.cur == 0
  {
    L.FlattenNone();
  }

  lemma WrittenText(b: FixedBuffer, v: L.Buf, capacity: nat)
    requires Holds(b, v, capacity)
    ensures b.cur <= b.data.Length
    ensures AsAppendedAll(L.Written(v)) == if b.cur == 0 then [] else [Text(b.data[..b.cur])]
  {
  }

  lemma AppendedConcat(a: seq<L.Chunk>, b: seq<L.Chunk>)
    ensures AsAppendedAll(a + b) == AsAppendedAll(a) + AsAppendedAll(b)
  {
  }

  /** Forgetting the end of the batch leaves every other buffer where it was. */
  lemma TruncatePlaces(places: map<FixedBuffer, Place>, current: FixedBuffer, next: FixedBuffer?,
                       spare1: FixedBuffer?, spare2: FixedBuffer?, full: seq<FixedBuffer>, batch: seq<FixedBuffer>, n: nat)
    requires n <= |batch| && PlacedAt(places, current, next, spare1, spare2, full, batch)
    ensures PlacedAt(places, current, next, spare1, spare2, full, batch[..n])
  {
  }

  /** The last buffer of a batch is none of the others, and may move to a free spare's place. */
  lemma PopPlaces(places: map<FixedBuffer, Place>, current: FixedBuffer, next: FixedBuffer?,
                  spare1: FixedBuffer?, spare2: FixedBuffer?, full: seq<FixedBuffer>, batch: seq<FixedBuffer>)
    requires batch != [] && PlacedAt(places, current, next, spare1, spare2, full, batch)
    ensures var n := |batch| - 1; var b := batch[n];
      && b in places && b !in batch[..n] && b !in full && b != current && b != next && b != spare1 && b != spare2
      && (spare1 == null ==> PlacedAt(places[b := Spare1], current, next, b, spare2, full, batch[..n]))
      && (spare2 == null ==> PlacedAt(places[b := Spare2], current, next, spare1, b, full, batch[..n]))
  {
  }

  /** A message that fits goes behind the others in the current buffer. */
  lemma StoredHere(b: FixedBuffer, s: L.Logger, m: L.Message)
    requires Holds(b, s.current, s.capacity) && b.Avail() > |m|
    ensures L.Store(s, m) == Fine(s.(current := s.current.Add(m), admitted := s.admitted + [m]))
    ensures s.current.Add(m).Bytes() == b.data[..b.cur] + m
  {
    FlattenSnoc(s.current.msgs, m);
  }

  lemma HoldsText(b: FixedBuffer, v: L.Buf, capacity: nat)
    requires b.cur < b.data.Length == capacity && b.data[..b.cur] == v.Bytes()
    ensures Holds(b, v, capacity)
  {
  }

  lemma HoldsReset(b: FixedBuffer, capacity: nat)
    requires b.cur == 0 && b.data.Length == capacity > 0
    ensures Holds(b, L.EMPTY, capacity)
  {
    L.FlattenNone();
  }

  method NewBuffer(capacity: nat) returns (b: FixedBuffer)
    requires capacity > 0
    ensures fresh(b) && fresh(b.data) && Holds(b, L.EMPTY, capacity)
  {
    b := new FixedBuffer(capacity);
    L.FlattenNone();
  }

  class AsyncLogger {
    const capacity: nat
    var running: bool
    var currentBuffer: FixedBuffer
    var nextBuffer: FixedBuffer?
    var buffers: seq<FixedBuffer>
    var newBuffer1: FixedBuffer?
    var newBuffer2: FixedBuffer?
    var writeBuffers: seq<FixedBuffer>
    var writeIndex: nat
    var appended: seq<Appended>
    /** Where each buffer is, or last was before it was given up. */
    ghost var places: map<FixedBuffer, Place>
    ghost var model: L.Logger

    ghost predicate Valid()
      reads this, places.Keys, set o | o in places.Keys :: o.data
    {
      && capacity > 0 && model.capacity == capacity && model.running == running
      && Placed() && Stored()
      && appended == AsAppendedAll(model.output)
      && (model.pc.Writing? ==> writeIndex == model.pc.i)
    }

    ghost predicate Placed()
      reads this
    {
      PlacedAt(places, currentBuffer, nextBuffer, newBuffer1, newBuffer2, buffers, writeBuffers)
    }

    /** Every buffer in use holds the bytes of its counterpart in the model. */
    ghost predicate Stored()
      requires Placed()
      reads this, places.Keys, set o | o in places.Keys :: o.data
    {
      && Holds(currentBuffer, model.current, capacity)
      && HoldsOpt(nextBuffer, model.next, capacity)
      && HoldsOpt(newBuffer1, model.spare1, capacity)
      && HoldsOpt(newBuffer2, model.spare2, capacity)
      && HoldsAll(buffers, model.buffers, capacity)
      && HoldsAll(writeBuffers, model.batch, capacity)
    }

    constructor (capacity: nat)
      requires capacity > 0
      ensures Valid() && this.capacity == capacity
      ensures forall b :: b in places ==> fresh(b) && fresh(b.data)
      ensures model == L.NewLogger(capacity) && L.Inv(model)
    {
      hide L.Inv, Flatten, Holds;
      this.capacity := capacity;
      var b0 := NewBuffer(capacity);
      var b1 := NewBuffer(capacity);
      L.NewLoggerInv(capacity);
      currentBuffer, nextBuffer, newBuffer1, newBuffer2 := b0, b1, null, null;
      buffers, writeBuffers, appended, running, writeIndex := [], [], [], true, 0;
      places, model := map[b0 := Current, b1 := NextUp], L.NewLogger(capacity);
    }

    /** The writing thread allocates its two spare buffers. */
    method Begin()
      requires Valid() && L.Inv(model) && model.pc.AtStart?
      modifies this
      ensures Valid() && L.Inv(model) && model == L.Begin(old(model))
      ensures forall b :: b in places && b !in old(places) ==> fresh(b) && fresh(b.data)
    {
      hide Holds, HoldsAll, PlacedAt, AsAppendedAll, Flatten, L.Inv;
      L.BeginFacts(model);
      var b1 := NewBuffer(capacity);
      var b2 := NewBuffer(capacity);
      AdoptSpares(b1, b2);
    }

    method AdoptSpares(b1: FixedBuffer, b2: FixedBuffer)
      requires Valid() && newBuffer1 == null && newBuffer2 == null
      requires Holds(b1, L.EMPTY, capacity) && Holds(b2, L.EMPTY, capacity) && b1.data != b2.data
      requires forall b :: b in places ==> b != b1 && b != b2 && b.data != b1.data && b.data != b2.data
      modifies this
      ensures Valid() && model == L.Begin(old(model)) && places.Keys == old(places.Keys) + {b1, b2}
    {
      hide Flatten, Holds, HoldsAll, AsAppendedAll, PlacedAt;
      SparePlaces(places, currentBuffer, nextBuffer, b1, b2, buffers, writeBuffers);
      newBuffer1, newBuffer2 := b1, b2;
      places, model := places[b1 := Spare1][b2 := Spare2], L.Begin(model);
    }

    /** The locked region of `log` when the current buffer has room. */
    method StoreHere(m: L.Message)
      requires Valid() && currentBuffer.Avail() > |m|
      modifies this`model, currentBuffer, currentBuffer.data
      ensures Valid() && Fine(model) == L.Store(old(model), m)
    {
      hide Flatten, L.Store, AsAppendedAll, Holds, HoldsAll, PlacedAt;
      ghost var s := model;
      StoredHere(currentBuffer, s, m);
      CurrentPlaced();
      CurrentApart();
      currentBuffer.Append(m);
      model := s.(current := s.current.Add(m), admitted := s.admitted + [m]);
      HoldsText(currentBuffer, model.current, capacity);
    }

    /** The current buffer and its storage are nobody else's. */
    lemma CurrentApart()
      requires Valid()
      ensures forall b :: b in buffers + writeBuffers ==> b != currentBuffer && b.data != currentBuffer.data
      ensures nextBuffer != null ==> nextBuffer != currentBuffer && nextBuffer.data != currentBuffer.data
      ensures newBuffer1 != null ==> newBuffer1 != currentBuffer && newBuffer1.data != currentBuffer.data
      ensures newBuffer2 != null ==> newBuffer2 != currentBuffer && newBuffer2.data != currentBuffer.data
    {
      hide Stored, AsAppendedAll;
    }

    /** A full current buffer is kept for the writer, and the next one, or a new one, takes its place. */
    ghost function Rotated(s: L.Logger): L.Logger
    {
      s.(buffers := s.buffers + [s.current], next := None,
         current := if s.next.Some? then s.next.value else L.EMPTY)
    }

    method TakeNext()
      requires Valid() && nextBuffer != null
      modifies this
      ensures Valid() && model == Rotated(old(model)) && places.Keys == old(places.Keys)
    {
      hide Flatten, AsAppendedAll, Holds, HoldsAll, PlacedAt;
      ghost var s := model;
      RotatePlaces(places, currentBuffer, nextBuffer, nextBuffer, newBuffer1, newBuffer2, buffers, writeBuffers);
      HoldsSnoc(buffers, s.buffers, currentBuffer, s.current, capacity);
      CurrentPlaced();
      NextPlaced();
      places, model := places[currentBuffer := InBuffers(|buffers|)][nextBuffer := Current], Rotated(s);
      buffers, currentBuffer, nextBuffer := buffers + [currentBuffer], nextBuffer, null;
    }

    method TakeNew()
      requires Valid() && nextBuffer == null
      modifies this
      ensures Valid() && model == Rotated(old(model))
      ensures forall b :: b in places && b !in old(places) ==> fresh(b) && fresh(b.data)
    {
      hide Holds, AsAppendedAll, Flatten;
      var spare := NewBuffer(capacity);
      Install(spare);
    }

    method Install(spare: FixedBuffer)
      requires Valid() && nextBuffer == null && Holds(spare, L.EMPTY, capacity)
      requires spare !in places && forall b :: b in places ==> b.data != spare.data
      modifies this
      ensures Valid() && model == Rotated(old(model)) && places.Keys == old(places.Keys) + {spare}
    {
      hide Flatten, AsAppendedAll, Holds, HoldsAll, PlacedAt;
      ghost var s := model;
      RotatePlaces(places, currentBuffer, nextBuffer, spare, newBuffer1, newBuffer2, buffers, writeBuffers);
      HoldsSnoc(buffers, s.buffers, currentBuffer, s.current, capacity);
      CurrentPlaced();
      places, model := places[currentBuffer := InBuffers(|buffers|)][spare := Current], Rotated(s);
      buffers, currentBuffer := buffers + [currentBuffer], spare;
    }

    /** The locked region of `log`. */
    method Store(m: L.Message)
      requires Valid() && L.Inv(model) && running && 0 < |m| < capacity
      modifies this, places.Keys, set b | b in places.Keys :: b.data
      ensures Valid() && Fine(model) == L.Store(old(model), m) && L.Inv(model)
      ensures forall b :: b in places && b !in old(places) ==> fresh(b) && fresh(b.data)
    {
      hide L.Inv, L.Store, Flatten, AsAppendedAll, Holds, HoldsAll, PlacedAt;
      ghost var s := model;
      L.StoreInv(s, m);
      CurrentPlaced();
      if currentBuffer.Avail() > |m| {
        StoreHere(m);
      } else {
        RotatedStore(s, m);
        if nextBuffer != null {
          TakeNext();
        } else {
          TakeNew();
        }
        CurrentPlaced();
        StoreHere(m);
      }
    }

    lemma NextPlaced()
      requires Valid() && nextBuffer != null
      ensures nextBuffer in places
    {
    }

    lemma CurrentPlaced()
      requires Valid()
      ensures currentBuffer in places && currentBuffer.cur == model.current.Size()
      ensures currentBuffer.cur < currentBuffer.data.Length == capacity
    {
    }

    /** Storing into a full buffer is rotating and then storing into the empty one. */
    lemma RotatedStore(s: L.Logger, m: L.Message)
      requires L.Inv(s) && s.current.Size() + |m| >= s.capacity && |m| < s.capacity
      ensures L.Store(s, m) == L.Store(Rotated(s), m) && Rotated(s).current.Size() == 0
    {
      L.FlattenNone();
    }

    /** `log`: what the guard rejects is ignored; a message as long as a buffer passes it and meets the assertion. */
    method Log(belowLevel: bool, message: Option<L.Message>) returns (r: Checked<bool>)
      requires Valid() && L.Inv(model)
      modifies this, places.Keys, set b | b in places.Keys :: b.data
      ensures Valid() && L.Inv(model)
      ensures var admitted := !belowLevel && message.Some? && old(running) && 0 < |message.value| <= capacity;
        && (r.Fault? <==> admitted && |message.value| == capacity)
        && (r.Fine? ==> (r.value <==> admitted))
        && if r.Fine? && admitted then Fine(model) == L.Store(old(model), message.value) else model == old(model)
    {
      hide L.Inv, L.Store, Flatten, AsAppendedAll, Holds, HoldsAll, PlacedAt;
      if belowLevel || message.None? || |message.value| == 0 || |message.value| > capacity || !running {
        return Fine(false);
      }
      L.StoreFaultIff(model, message.value);
      if |message.value| == capacity {
        return Fault("fixed_buffer.h:100");
      }
      Store(message.value);
      return Fine(true);
    }

    /** The destructor, when no `log` call is in progress. */
    method Destroy()
      requires Valid() && L.Inv(model) && model.running && model.inflight == map[]
      modifies this
      ensures Valid() && L.Inv(model) && model == old(model).(running := false)
    {
      hide L.Inv, Flatten, Holds, HoldsAll, AsAppendedAll, PlacedAt;
      L.NextInv(model, L.Destroy);
      running, model := false, model.(running := false);
    }

    /** The loop condition of `sync_thread` and the assertions at the top of its body. */
    method Test() returns (goOn: bool)
      requires Valid() && L.Inv(model) && model.pc.AtTest?
      modifies this`model
      ensures Valid() && Fine(model) == L.Test(old(model)) && L.Inv(model) && goOn == !model.pc.Ended?
    {
      hide L.Inv, L.Test, Flatten, Holds, HoldsAll, AsAppendedAll, PlacedAt;
      ghost var s := model;
      L.TestFacts(s);
      HoldsSize(currentBuffer, s.current, capacity);
      goOn := running || currentBuffer.Size() != 0;
      assert newBuffer1 != null && newBuffer1.Size() == 0 by { HoldsEmptySize(newBuffer1, capacity); }
      assert newBuffer2 != null && newBuffer2.Size() == 0 by { HoldsEmptySize(newBuffer2, capacity); }
      assert |writeBuffers| == 0 by { HoldsPrefix(writeBuffers, s.batch, 0, capacity); }
      model := L.Test(s).value;
    }

    /** The locked region of `sync_thread`. */
    method Swap()
      requires Valid() && L.Inv(model) && model.pc.AtSwap?
      modifies this
      ensures Valid() && Fine(model) == L.Swap(old(model)) && L.Inv(model) && writeBuffers != []
      ensures places.Keys == old(places.Keys)
    {
      ghost var s := model;
      L.SwapInv(s);
      hide L.Inv;
      if nextBuffer == null {
        MoveOverBoth();
      } else {
        MoveOver();
      }
    }

    method MoveOver()
      requires Valid() && newBuffer1 != null && nextBuffer != null && writeBuffers == []
      modifies this
      ensures Valid() && Fine(model) == L.Swap(old(model)) && writeBuffers != [] && places.Keys == old(places.Keys)
    {
      hide Flatten, Holds, AsAppendedAll, PlacedAt, HoldsAll;
      SwapPlaces(places, currentBuffer, nextBuffer, newBuffer1, newBuffer2, buffers);
      HoldsSnoc(buffers, model.buffers, currentBuffer, model.current, capacity);
      ghost var s, first := model, newBuffer1;
      writeBuffers, buffers := buffers + [currentBuffer], writeBuffers;
      currentBuffer, newBuffer1 := newBuffer1, null;
      model, places := L.Swap(s).value, Handed(places, |writeBuffers|)[first := Current];
    }

    method MoveOverBoth()
      requires Valid() && newBuffer1 != null && newBuffer2 != null && nextBuffer == null && writeBuffers == []
      modifies this
      ensures Valid() && Fine(model) == L.Swap(old(model)) && writeBuffers != [] && places.Keys == old(places.Keys)
    {
      hide Flatten, Holds, AsAppendedAll, PlacedAt, HoldsAll;
      SwapPlaces(places, currentBuffer, nextBuffer, newBuffer1, newBuffer2, buffers);
      HoldsSnoc(buffers, model.buffers, currentBuffer, model.current, capacity);
      ghost var s, first, second := model, newBuffer1, newBuffer2;
      writeBuffers, buffers := buffers + [currentBuffer], writeBuffers;
      currentBuffer, newBuffer1 := newBuffer1, null;
      nextBuffer, newBuffer2 := newBuffer2, null;
      model, places := L.Swap(s).value, Handed(places, |writeBuffers|)[first := Current][second := NextUp];
    }

    /** More than 25 buffers: say so, keep the first two. */
    method DropExcess()
      requires Valid() && L.Inv(model) && model.pc.AtDrop?
      modifies this
      ensures Valid() && model == L.DropExcess(old(model)) && L.Inv(model)
      ensures places == old(places)
    {
      hide L.Inv, Flatten, Holds, AsAppendedAll, PlacedAt, HoldsAll;
      L.DropInv(model);
      HoldsPrefix(writeBuffers, model.batch, 0, capacity);
      if |writeBuffers| > L.MAX_BATCH {
        EraseFromSecond();
      } else {
        assert model.output + [] == model.output;
        writeIndex, model := 0, L.DropExcess(model);
      }
    }

    method EraseFromSecond()
      requires Valid() && |writeBuffers| == |model.batch| > L.MAX_BATCH
      modifies this
      ensures Valid() && model == L.DropExcess(old(model)) && places == old(places)
    {
      hide Flatten, Holds, AsAppendedAll, PlacedAt, HoldsAll;
      AppendedConcat(model.output, L.Announced(model.batch));
      AppendedNotice(model.batch);
      TruncatePlaces(places, currentBuffer, nextBuffer, newBuffer1, newBuffer2, buffers, writeBuffers, L.KEPT);
      HoldsPrefix(writeBuffers, model.batch, L.KEPT, capacity);
      appended, writeBuffers, writeIndex := appended + [DropNotice(|writeBuffers| - L.KEPT)], writeBuffers[..L.KEPT], 0;
      model := L.DropExcess(model);
    }

    static lemma AppendedNotice(batch: seq<L.Buf>)
      ensures AsAppendedAll(L.Announced(batch)) == if |batch| > L.MAX_BATCH then [DropNotice(|batch| - L.KEPT)] else []
    {
    }

    /** Hands one buffer of the batch to the appender, unless it is empty. */
    method WriteNext()
      requires Valid() && model.pc.Writing? && writeIndex < |writeBuffers| == |model.batch|
      modifies this
      ensures Valid() && model == L.WriteOne(old(model)) && places == old(places)
      ensures writeBuffers == old(writeBuffers) && writeIndex == old(writeIndex) + 1
    {
      hide Flatten, Holds, AsAppendedAll, PlacedAt, HoldsAll;
      var b := writeBuffers[writeIndex];
      ghost var v := model.batch[writeIndex];
      HoldsAt(writeBuffers, model.batch, writeIndex, capacity);
      AppendedConcat(model.output, L.Written(v));
      WrittenText(b, v, capacity);
      var text := if b.Size() > 0 then [Text(b.data[..b.cur])] else [];
      appended, writeIndex, model := appended + text, writeIndex + 1, L.WriteOne(model);
    }

    /** The last buffer of the batch, emptied, becomes the first spare. */
    method RefillFirst()
      requires Valid() && newBuffer1 == null && writeBuffers != []
      modifies this, writeBuffers[|writeBuffers| - 1]
      ensures Valid() && places.Keys == old(places.Keys) && newBuffer1 != null && newBuffer2 == old(newBuffer2)
      ensures writeBuffers == old(writeBuffers)[..|old(writeBuffers)| - 1]
      ensures |old(model.batch)| > 0
      ensures model == old(model).(spare1 := Some(L.EMPTY), batch := old(model.batch)[..|old(model.batch)| - 1])
    {
      hide Flatten, AsAppendedAll, Holds, HoldsAll, PlacedAt;
      var n := |writeBuffers| - 1;
      var b := writeBuffers[n];
      PopPlaces(places, currentBuffer, nextBuffer, newBuffer1, newBuffer2, buffers, writeBuffers);
      HoldsAt(writeBuffers, model.batch, n, capacity);
      HoldsSize(b, model.batch[n], capacity);
      HoldsPrefix(writeBuffers, model.batch, n, capacity);
      newBuffer1, writeBuffers := b, writeBuffers[..n];
      places, model := places[b := Spare1], model.(spare1 := Some(L.EMPTY), batch := model.batch[..n]);
      b.cur := 0;
      HoldsReset(b, capacity);
    }

    /** The last buffer of the batch, emptied, becomes the second spare. */
    method RefillSecond()
      requires Valid() && newBuffer2 == null && writeBuffers != []
      modifies this, writeBuffers[|writeBuffers| - 1]
      ensures Valid() && places.Keys == old(places.Keys) && newBuffer2 != null && newBuffer1 == old(newBuffer1)
      ensures writeBuffers == old(writeBuffers)[..|old(writeBuffers)| - 1]
      ensures |old(model.batch)| > 0
      ensures model == old(model).(spare2 := Some(L.EMPTY), batch := old(model.batch)[..|old(model.batch)| - 1])
    {
      hide Flatten, AsAppendedAll, Holds, HoldsAll, PlacedAt;
      var n := |writeBuffers| - 1;
      var b := writeBuffers[n];
      PopPlaces(places, currentBuffer, nextBuffer, newBuffer1, newBuffer2, buffers, writeBuffers);
      HoldsAt(writeBuffers, model.batch, n, capacity);
      HoldsSize(b, model.batch[n], capacity);
      HoldsPrefix(writeBuffers, model.batch, n, capacity);
      newBuffer2, writeBuffers := b, writeBuffers[..n];
      places, model := places[b := Spare2], model.(spare2 := Some(L.EMPTY), batch := model.batch[..n]);
      b.cur := 0;
      HoldsReset(b, capacity);
    }

    method Recycle()
      requires Valid() && L.Inv(model) && model.pc.Writing? && writeIndex >= |writeBuffers|
      modifies this, writeBuffers
      ensures Valid() && Fine(model) == L.Recycle(old(model)) && L.Inv(model) && places.Keys == old(places.Keys)
    {
      hide Flatten, AsAppendedAll, Holds, HoldsAll, PlacedAt, L.Inv;
      ghost var s := model;
      HoldsPrefix(writeBuffers, s.batch, 0, capacity);
      L.RecycleInv(s);
      L.RecycleFacts(s);
      hide L.Recycle;
      if newBuffer1 == null {
        assert writeBuffers != [];
        RefillFirst();
      }
      if newBuffer2 == null {
        assert writeBuffers != [];
        RefillSecond();
      }
      ClearBatch();
    }

    /** Gives up what is left of the batch. */
    method ClearBatch()
      requires Valid()
      modifies this`writeBuffers, this`model
      ensures Valid() && writeBuffers == [] && model == old(model).(batch := [], pc := L.AtTest)
    {
      hide Flatten, AsAppendedAll, Holds, HoldsAll, PlacedAt;
      TruncatePlaces(places, currentBuffer, nextBuffer, newBuffer1, newBuffer2, buffers, writeBuffers, 0);
      HoldsNone(capacity);
      writeBuffers, model := [], model.(batch := [], pc := L.AtTest);
    }

    /** The writing loop over the batch. */
    method WriteBatch()
      requires Valid() && L.Inv(model) && model.pc.Writing? && writeIndex <= |writeBuffers|
      modifies this
      ensures Valid() && model == L.WriteRest(old(model)) && L.Inv(model) && places == old(places)
      ensures writeBuffers == old(writeBuffers) && writeIndex == |writeBuffers|
    {
      hide L.Inv, Flatten, AsAppendedAll, Holds, HoldsAll, PlacedAt;
      HoldsPrefix(writeBuffers, model.batch, 0, capacity);
      while writeIndex < |writeBuffers|
        invariant Valid() && L.Inv(model) && model.pc.Writing? && writeIndex <= |writeBuffers| == |model.batch|
        invariant writeBuffers == old(writeBuffers) && places == old(places)
        invariant L.WriteRest(model) == L.WriteRest(old(model))
      {
        L.WriteInv(model);
        WriteNext();
      }
    }

    /** One turn of `sync_thread`, with no other thread in between. */
    method SyncRound() returns (goOn: bool)
      requires Valid() && L.Inv(model) && model.pc.AtTest?
      modifies this, places.Keys
      ensures Valid() && L.Inv(model) && Fine(model) == L.Round(old(model)) && goOn == !model.pc.Ended?
    {
      hide L.Inv, L.Test, L.Swap, L.DropExcess, L.Recycle, L.WriteRest, Flatten, AsAppendedAll, Holds, HoldsAll, PlacedAt;
      ghost var s := model;
      L.RoundInv(s);
      L.TestFacts(s);
      goOn := Test();
      if goOn {
        Proceed();
      }
    }

    method Proceed()
      requires Valid() && L.Inv(model) && model.pc.AtSwap?
      modifies this, places.Keys
      ensures Valid() && L.Inv(model) && model.pc.AtTest?
      ensures L.Swap(old(model)).Fine? && Fine(model) == L.Recycle(L.WriteRest(L.DropExcess(L.Swap(old(model)).value)))
    {
      hide L.Inv, L.WriteRest, Flatten, AsAppendedAll, Holds, HoldsAll, PlacedAt;
      Swap();
      HoldsPrefix(writeBuffers, model.batch, 0, capacity);
      DropExcess();
      HoldsPrefix(writeBuffers, model.batch, 0, capacity);
      WriteBatch();
      BatchPlaced();
      Recycle();
    }

    lemma BatchPlaced()
      requires Placed()
      ensures forall b :: b in writeBuffers ==> b in places
    {
    }

    /** Neither the current, full and batch buffers nor the next one and the spares share a buffer or its storage. */
    lemma NoSharing()
      requires Valid()
      ensures var owners := [currentBuffer] + buffers + writeBuffers;
        && (forall j, k :: 0 <= j < k < |owners| ==> owners[j] != owners[k] && owners[j].data != owners[k].data)
        && (forall b, e :: b in owners && e in Empties() ==> b != e && b.data != e.data)
      ensures forall j, k :: 0 <= j < k < |Empties()| ==>
        Empties()[j] != Empties()[k] && Empties()[j].data != Empties()[k].data
    {
      hide Stored, AsAppendedAll;
      var owners := [currentBuffer] + buffers + writeBuffers;
      forall k | 0 <= k < |owners|
        ensures owners[k] in places && places[owners[k]] ==
          if k == 0 then Current else if k <= |buffers| then InBuffers(k - 1) else InBatch(k - 1 - |buffers|)
      {
      }
      assert forall e :: e in Empties() ==> e in places && places[e] in {NextUp, Spare1, Spare2};
    }

    /** The next buffer and the spares that are there. */
    ghost function Empties(): seq<FixedBuffer>
      reads this
    {
      (if nextBuffer != null then [nextBuffer] else [])
      + (if newBuffer1 != null then [newBuffer1] else [])
      + (if newBuffer2 != null then [newBuffer2] else [])
    }
  }
}
