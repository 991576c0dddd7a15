/**
 * The growable byte buffer of clia/src/net/buffer.cc: what every operation does to storage and indices, the class that
 * does it in place, and what holds over every run of operations.
 */
module NetBuffer {
  import opened Sequences
  import opened Checks

  newtype byte = x: int | 0 <= x < 256

  const PREPEND: nat := 8
  const SCATTER_SPACE: nat := 65536

  function Zeros(n: nat): (z: seq<byte>)
    ensures |z| == n
  {
    seq(n, _ => 0)
  }

  /** Storage and the two indices; `Readable` is the queue of bytes the buffer stands for. */
  datatype Image = Image(storage: seq<byte>, reader: nat, writer: nat) {

    predicate Valid()
    {
      PREPEND <= reader <= writer <= |storage|
    }

    function Readable(): seq<byte>
      requires Valid()
    {
      storage[reader..writer]
    }

    function Writable(): nat
      requires Valid()
    {
      |storage| - writer
    }

    /**
     * What a read of `len` bytes (none when it fails) needs: free room on entry, and a readable part that the scratch
     * copy at the end of `read_fd` can hold together with its terminator.
     */
    predicate ReadFits(len: nat)
      requires Valid()
    {
      Writable() > 0 && |Readable()| + len < SCATTER_SPACE
    }

    function RetrieveAll(): (r: Image)
      requires Valid()
      ensures r.Valid() && r.Readable() == []
    {
      Image(storage, PREPEND, PREPEND)
    }

    function Retrieve(len: nat): (r: Image)
      requires Valid() && len <= |Readable()|
      ensures r.Valid() && r.Readable() == Readable()[len..] && |r.storage| == |storage|
    {
      if len < writer - reader then Image(storage, reader + len, writer) else RetrieveAll()
    }

    /** True when compaction would not free enough room, so the storage has to grow. */
    predicate MustGrow(len: nat)
      requires Valid()
    {
      Writable() + reader < len + PREPEND
    }

    function MakeSpace(len: nat): (r: Image)
      requires Valid() && Writable() < len
      ensures r.Valid() && r.Readable() == Readable() && r.Writable() >= len
    {
      if MustGrow(len) then
        Image(storage + Zeros(writer + len - |storage|), reader, writer)
      else
        var n := writer - reader;
        Image(storage[..PREPEND] + storage[reader..writer] + storage[PREPEND + n..], PREPEND, PREPEND + n)
    }

    function EnsureWritable(len: nat): (r: Image)
      requires Valid()
      ensures r.Valid() && r.Readable() == Readable() && r.Writable() >= len
    {
      if Writable() < len then MakeSpace(len) else this
    }

    /** Bytes put directly behind the writer index, in room that is already there. */
    function Fill(data: seq<byte>): (r: Image)
      requires Valid() && |data| <= Writable()
      ensures r.Valid() && r.Readable() == Readable() + data && |r.storage| == |storage|
    {
      Image(storage[..writer] + data + storage[writer + |data|..], reader, writer + |data|)
    }

    function Append(data: seq<byte>): (r: Image)
      requires Valid()
      ensures r.Valid() && r.Readable() == Readable() + data
    {
      EnsureWritable(|data|).Fill(data)
    }

    /** A scatter read of `data`: first into the free room, the excess by way of the stack buffer. */
    function ScatterRead(data: seq<byte>): (r: Image)
      requires Valid()
      ensures r.Valid() && r.Readable() == Readable() + data
    {
      if |data| <= Writable() then Fill(data)
      else
        var full := Fill(data[..Writable()]);
        assert data[..Writable()] + data[Writable()..] == data;
        full.Append(data[Writable()..])
    }
  }

  // ----- storage size -----

  /** Storage grows exactly when the readable bytes, the new ones and the prepend area exceed it together. */
  lemma AppendGrowsIff(b: Image, data: seq<byte>)
    requires b.Valid()
    ensures |b.Append(data).storage| > |b.storage| <==> |b.Readable()| + |data| + PREPEND > |b.storage|
    ensures |b.Append(data).storage| >= |b.storage|
  {
    assert b.MustGrow(|data|) <==> |b.Readable()| + |data| + PREPEND > |b.storage|;
  }

  lemma AppendSize(b: Image, data: seq<byte>)
    requires b.Valid()
    ensures |b.Append(data).storage| == |b.storage| || |b.Append(data).storage| <= 2 * (|b.Readable()| + |data|) + 7
  {
  }

  lemma ScatterReadSize(b: Image, data: seq<byte>)
    requires b.Valid()
    ensures var r := b.ScatterRead(data);
      |r.storage| == |b.storage| || |r.storage| <= 2 * (|b.Readable()| + |data|) + 7
  {
    if |data| > b.Writable() {
      AppendSize(b.Fill(data[..b.Writable()]), data[b.Writable()..]);
    }
  }

  /**
   * The assertion on entry to `read_fd` wants free room. A scatter read leaves none exactly when it filled the room
   * to the last byte or, having overflowed it, left no slack beyond the prepend area.
   */
  lemma ReadLeavesNoRoomIff(b: Image, data: seq<byte>)
    requires b.Valid()
    ensures b.ScatterRead(data).Writable() == 0 <==>
      if |data| <= b.Writable() then |data| == b.Writable()
      else |b.Readable()| + |data| + PREPEND >= |b.storage|
  {
    if |data| > b.Writable() {
      var full := b.Fill(data[..b.Writable()]);
      var rest := data[b.Writable()..];
      assert full.Writable() == 0 && full.Writable() < |rest|;
      assert full.MustGrow(|rest|) <==> |b.Readable()| + |data| + PREPEND > |b.storage|;
    }
  }

  // ----- runs -----

  datatype Op =
    | Put(data: seq<byte>)
    | Take(len: nat)
    | TakeAll
    | ReadFd(data: seq<byte>)
    | WriteFd(accepted: nat)

  /** What the callers and the kernel guarantee of the next operation. */
  predicate Allowed(b: Image, op: Op)
    requires b.Valid()
  {
    match op
    case Put(_) => true
    case Take(len) => len <= |b.Readable()|
    case TakeAll => true
    case ReadFd(data) => b.ReadFits(|data|)
    case WriteFd(accepted) => accepted <= |b.Readable()|
  }

  function Apply(b: Image, op: Op): (r: Image)
    requires b.Valid() && Allowed(b, op)
    ensures r.Valid()
  {
    match op
    case Put(data) => b.Append(data)
    case Take(len) => b.Retrieve(len)
    case TakeAll => b.Retrieve(|b.Readable()|)
    case ReadFd(data) => b.ScatterRead(data)
    case WriteFd(accepted) => b.Retrieve(accepted)
  }

  function BytesIn(op: Op): seq<byte>
  {
    match op
    case Put(data) => data
    case ReadFd(data) => data
    case _ => []
  }

  function BytesOut(b: Image, op: Op): seq<byte>
    requires b.Valid() && Allowed(b, op)
  {
    match op
    case Take(len) => b.Readable()[..len]
    case TakeAll => b.Readable()
    case WriteFd(accepted) => b.Readable()[..accepted]
    case _ => []
  }

  predicate AllowedRun(b: Image, ops: seq<Op>)
    requires b.Valid()
    decreases |ops|
  {
    ops == [] || (Allowed(b, ops[0]) && AllowedRun(Apply(b, ops[0]), ops[1..]))
  }

  /** Everything a run leaves behind: the buffer, the bytes put in and taken out, and the peak of readable bytes. */
  datatype Outcome = Outcome(buffer: Image, entered: seq<byte>, left: seq<byte>, peak: nat)

  function Max(a: nat, b: nat): nat { if a < b then b else a }

  function Run(b: Image, ops: seq<Op>): (o: Outcome)
    requires b.Valid() && AllowedRun(b, ops)
    ensures o.buffer.Valid() && o.peak >= |b.Readable()|
    decreases |ops|
  {
    if ops == [] then Outcome(b, [], [], |b.Readable()|)
    else
      var rest := Run(Apply(b, ops[0]), ops[1..]);
      Outcome(rest.buffer, BytesIn(ops[0]) + rest.entered, BytesOut(b, ops[0]) + rest.left,
              Max(|b.Readable()|, rest.peak))
  }

  lemma ApplyIsQueue(b: Image, op: Op)
    requires b.Valid() && Allowed(b, op)
    ensures BytesOut(b, op) + Apply(b, op).Readable() == b.Readable() + BytesIn(op)
  {
    match op
    case Take(len) => assert b.Readable()[..len] + b.Readable()[len..] == b.Readable();
    case WriteFd(len) => assert b.Readable()[..len] + b.Readable()[len..] == b.Readable();
    case _ =>
  }

  lemma QueueStep(before: seq<byte>, after: seq<byte>, rest: Outcome, put: seq<byte>, got: seq<byte>)
    requires rest.buffer.Valid()
    requires got + after == before + put
    requires rest.left + rest.buffer.Readable() == after + rest.entered
    ensures (got + rest.left) + rest.buffer.Readable() == before + (put + rest.entered)
  {
    calc {
      (got + rest.left) + rest.buffer.Readable();
      got + (rest.left + rest.buffer.Readable());
      (got + after) + rest.entered;
      before + (put + rest.entered);
    }
  }

  /** Over every run the buffer is a byte queue: taken out, then still readable, is what was readable, then put in. */
  lemma {:induction false} RunIsQueue(b: Image, ops: seq<Op>)
    requires b.Valid() && AllowedRun(b, ops)
    ensures var o := Run(b, ops); o.left + o.buffer.Readable() == b.Readable() + o.entered
    decreases |ops|
  {
    if ops != [] {
      var b' := Apply(b, ops[0]);
      ApplyIsQueue(b, ops[0]);
      RunIsQueue(b', ops[1..]);
      QueueStep(b.Readable(), b'.Readable(), Run(b', ops[1..]), BytesIn(ops[0]), BytesOut(b, ops[0]));
    }
  }

  lemma ApplySize(b: Image, op: Op)
    requires b.Valid() && Allowed(b, op)
    ensures var r := Apply(b, op); |r.storage| == |b.storage| || |r.storage| <= 2 * |r.Readable()| + 7
  {
    match op
    case Put(data) => AppendSize(b, data);
    case ReadFd(data) => ScatterReadSize(b, data);
    case _ =>
  }

  predicate SizeWithin(o: Outcome, first: nat)
  {
    |o.buffer.storage| <= Max(first, 2 * o.peak + 7)
  }

  lemma SizeWithinStep(b: Image, op: Op, rest: Outcome)
    requires b.Valid() && Allowed(b, op)
    requires |Apply(b, op).Readable()| <= rest.peak
    requires SizeWithin(rest, |Apply(b, op).storage|)
    ensures |rest.buffer.storage| <= Max(|b.storage|, 2 * Max(|b.Readable()|, rest.peak) + 7)
  {
    ApplySize(b, op);
  }

  /** Over every run the storage stays below the larger of its first size and twice the peak of readable bytes plus 7. */
  lemma {:induction false} RunStorageBound(b: Image, ops: seq<Op>)
    requires b.Valid() && AllowedRun(b, ops)
    ensures SizeWithin(Run(b, ops), |b.storage|)
    decreases |ops|
  {
    if ops != [] {
      RunStorageBound(Apply(b, ops[0]), ops[1..]);
      SizeWithinStep(b, ops[0], Run(Apply(b, ops[0]), ops[1..]));
    }
  }

  // ----- the class -----

  lemma ReadablePrefix(b: Image, n: nat)
    requires b.Valid() && n <= |b.Readable()|
    ensures b.storage[b.reader..b.reader + n] == b.Readable()[..n]
  {
    assert forall k :: 0 <= k < n ==> b.storage[b.reader..b.reader + n][k] == b.Readable()[..n][k];
  }

  /** The storage once k bytes have been copied to the front. */
  function Shifted(b: Image, k: nat): (r: seq<byte>)
    requires b.Valid() && k <= b.writer - b.reader
    ensures |r| == |b.storage|
  {
    b.storage[..PREPEND] + b.storage[b.reader..b.reader + k] + b.storage[PREPEND + k..]
  }

  /** Although source and destination overlap, the next byte to copy is still the original one. */
  lemma ShiftStep(b: Image, k: nat)
    requires b.Valid() && k < b.writer - b.reader
    ensures Shifted(b, k)[b.reader + k] == b.storage[b.reader + k]
    ensures Shifted(b, k)[PREPEND + k := b.storage[b.reader + k]] == Shifted(b, k + 1)
  {
    var x := b.storage[b.reader + k];
    assert b.storage[b.reader..b.reader + k + 1] == b.storage[b.reader..b.reader + k] + [x];
    assert b.storage[PREPEND + k..] == [b.storage[PREPEND + k]] + b.storage[PREPEND + k + 1..];
  }

  lemma ShiftStart(b: Image)
    requires b.Valid()
    ensures Shifted(b, 0) == b.storage
  {
  }

  class Buffer {
    var storage: array<byte>
    var reader: nat
    var writer: nat

    ghost predicate Valid()
      reads this
    {
      PREPEND <= reader <= writer <= storage.Length
    }

    ghost function State(): Image
      reads this, storage
    {
      Image(storage[..], reader, writer)
    }

    constructor (initialSize: nat)
      ensures Valid() && fresh(storage)
      ensures State() == Image(Zeros(PREPEND + initialSize), PREPEND, PREPEND)
      ensures State().Readable() == [] && State().Writable() == initialSize
    {
      storage := new byte[PREPEND + initialSize](_ => 0);
      reader, writer := PREPEND, PREPEND;
      new;
      assert storage[..] == Zeros(PREPEND + initialSize);
    }

    method RetrieveAll()
      requires Valid()
      modifies this`reader, this`writer
      ensures Valid() && State() == old(State()).RetrieveAll()
    {
      reader, writer := PREPEND, PREPEND;
    }

    method Retrieve(len: nat)
      requires Valid() && len <= writer - reader
      modifies this`reader, this`writer
      ensures Valid() && State() == old(State()).Retrieve(len)
    {
      if len < writer - reader {
        reader := reader + len;
      } else {
        RetrieveAll();
      }
    }

    method RetrieveAsString(len: nat) returns (text: seq<byte>)
      requires Valid() && len <= writer - reader
      modifies this`reader, this`writer
      ensures Valid() && State() == old(State()).Retrieve(len)
      ensures text == old(State()).Readable()[..len]
    {
      text := storage[reader..reader + len];
      assert storage[..][reader..reader + len] == text;
      ReadablePrefix(State(), len);
      Retrieve(len);
    }

    method RetrieveAllAsString() returns (text: seq<byte>)
      requires Valid()
      modifies this`reader, this`writer
      ensures Valid() && State() == old(State()).Retrieve(|old(State()).Readable()|)
      ensures text == old(State()).Readable() && State().Readable() == []
    {
      text := RetrieveAsString(writer - reader);
    }

    /** `std::vector::resize`: a longer copy, padded with zeros. */
    method Resize(size: nat)
      requires Valid() && storage.Length <= size
      modifies this`storage
      ensures Valid() && fresh(storage)
      ensures State() == Image(old(storage[..]) + Zeros(size - old(storage.Length)), old(reader), old(writer))
    {
      var bigger := new byte[size](_ => 0);
      var size0 := storage.Length;
      for k := 0 to size0
        modifies bigger
        invariant bigger[..k] == storage[..k]
        invariant forall j :: k <= j < size ==> bigger[j] == 0
      {
        bigger[k] := storage[k];
      }
      assert bigger[..] == bigger[..storage.Length] + Zeros(size - storage.Length);
      storage := bigger;
    }

    method CopyByte(from: nat, to: nat)
      requires from < storage.Length && to < storage.Length
      modifies storage
      ensures storage[..] == old(storage[..])[to := old(storage[..])[from]]
    {
      storage[to] := storage[from];
    }

    /** The forward copy of compaction; source and destination overlap. */
    method Compact()
      requires Valid() && PREPEND < reader
      modifies this`reader, this`writer, storage
      ensures Valid() && storage == old(storage)
      ensures var was := old(State()); var n := was.writer - was.reader;
        State() == Image(Shifted(was, n), PREPEND, PREPEND + n)
    {
      hide Shifted;
      var n := writer - reader;
      ghost var was := State();
      ShiftStart(was);
      for k := 0 to n
        modifies storage
        invariant storage[..] == Shifted(was, k)
      {
        CopyByte(reader + k, PREPEND + k);
        ShiftStep(was, k);
      }
      reader, writer := PREPEND, PREPEND + n;
    }

    method MakeSpace(len: nat)
      requires Valid() && storage.Length - writer < len
      modifies this, storage
      ensures Valid() && (storage == old(storage) || fresh(storage))
      ensures State() == old(State()).MakeSpace(len)
    {
      if storage.Length - writer + reader < len + PREPEND {
        Resize(writer + len);
      } else {
        assert PREPEND < reader;
        Compact();
      }
    }

    method EnsureWritableBytes(len: nat)
      requires Valid()
      modifies this, storage
      ensures Valid() && (storage == old(storage) || fresh(storage))
      ensures State() == old(State()).EnsureWritable(len)
      ensures storage.Length - writer >= len
    {
      if storage.Length - writer < len {
        MakeSpace(len);
      }
      assert State().Writable() >= len;
    }

    /** Copies bytes behind the writer index and advances it. */
    method CopyIn(data: seq<byte>)
      requires Valid() && |data| <= storage.Length - writer
      modifies this`writer, storage
      ensures Valid() && State() == old(State()).Fill(data)
    {
      for k := 0 to |data|
        modifies storage
        invariant forall j :: 0 <= j < storage.Length ==>
          storage[j] == if writer <= j < writer + k then data[j - writer] else old(storage[j])
      {
        storage[writer + k] := data[k];
      }
      assert storage[..] == old(storage[..writer]) + data + old(storage[writer + |data|..]);
      writer := writer + |data|;
    }

    method Append(data: seq<byte>)
      requires Valid()
      modifies this, storage
      ensures Valid() && (storage == old(storage) || fresh(storage))
      ensures State() == old(State()).Append(data)
    {
      EnsureWritableBytes(|data|);
      CopyIn(data);
    }

    /** The copy at the end of `read_fd`: the readable bytes and a terminator, which the scratch buffer may not hold. */
    method CopyOut(scratch: array<byte>) returns (r: Checked<()>)
      requires Valid() && scratch != storage
      modifies scratch
      ensures r.Fault? <==> writer - reader >= scratch.Length
      ensures r.Fine? ==> scratch[..writer - reader] == State().Readable() && scratch[writer - reader] == 0
    {
      var n := writer - reader;
      if n >= scratch.Length {
        return Fault("buffer.cc:145-146");
      }
      for k := 0 to n
        modifies scratch
        invariant scratch[..k] == storage[reader..reader + k]
      {
        scratch[k] := storage[reader + k];
      }
      scratch[n] := 0;
      assert storage[reader..writer] == State().Readable();
      r := Fine(());
    }

    /** `read_fd`: `arrived` is what `readv` delivered, or None when it failed. */
    method ReadFd(arrived: Option<seq<byte>>) returns (r: Checked<int>)
      requires Valid()
      requires arrived.Some? ==> |arrived.value| <= storage.Length - writer + SCATTER_SPACE
      modifies this, storage
      ensures Valid() && (storage == old(storage) || fresh(storage))
      ensures r.Fine? <==> old(State()).ReadFits(if arrived.Some? then |arrived.value| else 0)
      ensures r.Fine? && arrived.None? ==> r.value == -1 && State() == old(State())
      ensures r.Fine? && arrived.Some? ==> r.value == |arrived.value| && State() == old(State()).ScatterRead(arrived.value)
    {
      hide Image.ScatterRead;
      var extrabuf := new byte[SCATTER_SPACE](_ => 0);
      if storage.Length - writer == 0 {
        return Fault("buffer.cc:131");
      }
      var n := -1;
      if arrived.Some? {
        TakeIn(arrived.value);
        n := |arrived.value|;
      }
      var _ :- CopyOut(extrabuf);
      r := Fine(n);
    }

    /** Puts what arrived into the free room, and the excess behind it once there is room for it. */
    method TakeIn(data: seq<byte>)
      requires Valid()
      modifies this, storage
      ensures Valid() && (storage == old(storage) || fresh(storage))
      ensures State() == old(State()).ScatterRead(data)
    {
      var writable := storage.Length - writer;
      if |data| <= writable {
        CopyIn(data);
      } else {
        CopyIn(data[..writable]);
        Append(data[writable..]);
      }
    }

    /** `write_fd`: `accepted` is how many bytes `write` took, or None when it failed. */
    method WriteFd(accepted: Option<nat>) returns (n: int, sent: seq<byte>)
      requires Valid()
      requires accepted.Some? ==> accepted.value <= writer - reader
      modifies this`reader, this`writer
      ensures Valid()
      ensures accepted.None? ==> n == -1 && sent == [] && State() == old(State())
      ensures accepted.Some? ==>
        && n == accepted.value
        && sent == old(State()).Readable()[..n]
        && State() == old(State()).Retrieve(n)
    {
      if accepted.None? {
        return -1, [];
      }
      n := accepted.value;
      sent := storage[reader..reader + n];
      assert storage[..][reader..reader + n] == sent;
      ReadablePrefix(State(), n);
      Retrieve(n);
    }
  }
}
