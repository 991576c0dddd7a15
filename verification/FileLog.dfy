/**
 * The rolling file appender of clia/src/log/file_appender.cc: when it opens a new file, and the loop over short writes.
 * Clock readings, the outcome of opening a file and the results of `fwrite` are inputs.
 */
module FileLog {
  import opened Sequences

  type Bytes = seq<char>

  /** Where a segment goes: the file named after a second, or the standard stream when opening fails. */
  datatype Sink = File(second: nat) | Standard

  /** What was written between two openings; `chunks` is the history of the appends in it. */
  datatype Segment = Segment(sink: Sink, data: Bytes, chunks: seq<Bytes>)

  datatype Appender = Appender(
    rollSize: nat, rollPeriod: nat, checkEvery: nat,
    count: nat, lastRoll: nat, thisPeriod: nat, writtenBytes: nat, segments: seq<Segment>)

  /** The clock as read for the period check, for the roll and for the file name, and whether `fopen` succeeds. */
  datatype Clock = Clock(check: nat, now: nat, name: nat, opens: bool)

  /** A call of `fwrite` that did not write everything: how much it wrote, and whether the stream is in error. */
  datatype Short = Short(n: nat, error: bool)

  function PeriodStart(t: nat, period: nat): nat
    requires period > 0
  {
    t / period * period
  }

  function AfterRoll(a: Appender, clock: Clock): Appender
    requires a.rollPeriod > 0
  {
    if a.lastRoll == clock.now then a
    else a.(lastRoll := clock.now, thisPeriod := PeriodStart(clock.now, a.rollPeriod), writtenBytes := 0,
            segments := a.segments + [Segment(if clock.opens then File(clock.name) else Standard, [], [])])
  }

  /** The choice before writing: roll by size, or now and then by period. */
  function MaybeRoll(a: Appender, clock: Clock): Appender
    requires a.rollPeriod > 0
  {
    if a.writtenBytes > a.rollSize then AfterRoll(a, clock)
    else if a.count + 1 < a.checkEvery then a.(count := a.count + 1)
    else
      var a1 := a.(count := 0);
      if PeriodStart(clock.check, a.rollPeriod) != a.thisPeriod then AfterRoll(a1, clock) else a1
  }

  /** Bytes that reach the stream, and the number the loop counts; after the shorts `fwrite` writes all it is given. */
  function Landed(data: Bytes, shorts: seq<Short>): (r: (Bytes, nat))
    ensures r.0 <= data && r.1 <= |r.0|
    decreases |shorts|
  {
    if data == [] || shorts == [] || shorts[0].n >= |data| then (data, |data|)
    else if shorts[0].error then (data[..shorts[0].n], 0)
    else
      var n := shorts[0].n;
      var rest := Landed(data[n..], shorts[1..]);
      assert data[..n] + rest.0 <= data;
      (data[..n] + rest.0, n + rest.1)
  }

  function AfterAppend(a: Appender, data: Bytes, clock: Clock, shorts: seq<Short>): Appender
    requires a.rollPeriod > 0 && a.segments != []
  {
    if data == [] then a
    else
      var a1 := MaybeRoll(a, clock);
      var i := |a1.segments| - 1;
      var last := a1.segments[i];
      var (bytes, counted) := Landed(data, shorts);
      a1.(writtenBytes := a1.writtenBytes + counted,
          segments := a1.segments[i := last.(data := last.data + bytes, chunks := last.chunks + [bytes])])
  }

  predicate NoError(shorts: seq<Short>)
  {
    forall k :: 0 <= k < |shorts| ==> !shorts[k].error
  }

  /** Without an error, any pattern of short writes puts down all the bytes and counts them. */
  lemma {:induction false} ShortWritesLandAll(data: Bytes, shorts: seq<Short>)
    requires NoError(shorts)
    ensures Landed(data, shorts) == (data, |data|)
    decreases |shorts|
  {
    if data == [] || shorts == [] || shorts[0].n >= |data| {
    } else {
      var n := shorts[0].n;
      ShortWritesLandAll(data[n..], shorts[1..]);
      assert data[..n] + data[n..] == data;
    }
  }

  // ----- runs -----

  datatype Call = Call(data: Bytes, clock: Clock, shorts: seq<Short>)

  function AppendAll(a: Appender, calls: seq<Call>): (r: Appender)
    requires a.rollPeriod > 0 && a.segments != []
    ensures r.rollPeriod == a.rollPeriod && r.rollSize == a.rollSize && r.segments != []
    decreases |calls|
  {
    if calls == [] then a
    else AppendAll(AfterAppend(a, calls[0].data, calls[0].clock, calls[0].shorts), calls[1..])
  }

  /** Each segment is the concatenation of whole appends, and the last one's size is known. */
  predicate Tidy(a: Appender)
  {
    && a.rollPeriod > 0 && a.segments != []
    && (forall i :: 0 <= i < |a.segments| ==> a.segments[i].data == Flatten(a.segments[i].chunks))
    && a.writtenBytes == |a.segments[|a.segments| - 1].data|
  }

  /** All appends in order of opening. */
  function ChunksOf(segments: seq<Segment>): seq<Bytes>
  {
    if segments == [] then []
    else ChunksOf(segments[..|segments| - 1]) + segments[|segments| - 1].chunks
  }

  function ContentsOf(segments: seq<Segment>): Bytes
  {
    if segments == [] then []
    else ContentsOf(segments[..|segments| - 1]) + segments[|segments| - 1].data
  }

  function NonEmpty(calls: seq<Call>): seq<Bytes>
  {
    if calls == [] then []
    else (if calls[0].data == [] then [] else [calls[0].data]) + NonEmpty(calls[1..])
  }

  lemma RollTidy(a: Appender, clock: Clock)
    requires Tidy(a)
    ensures Tidy(AfterRoll(a, clock)) && ChunksOf(AfterRoll(a, clock).segments) == ChunksOf(a.segments)
  {
    var newest := Segment(if clock.opens then File(clock.name) else Standard, [], []);
    assert (a.segments + [newest])[..|a.segments|] == a.segments;
    assert ChunksOf(a.segments + [newest]) == ChunksOf(a.segments) + [];
  }

  lemma MaybeRollTidy(a: Appender, clock: Clock)
    requires Tidy(a)
    ensures Tidy(MaybeRoll(a, clock)) && ChunksOf(MaybeRoll(a, clock).segments) == ChunksOf(a.segments)
  {
    hide AfterRoll, ChunksOf, Flatten, PeriodStart;
    RollTidy(a, clock);
    RollTidy(a.(count := 0), clock);
  }

  lemma AppendTidy(a: Appender, data: Bytes, clock: Clock, shorts: seq<Short>)
    requires Tidy(a) && NoError(shorts)
    ensures var a' := AfterAppend(a, data, clock, shorts);
      Tidy(a') && ChunksOf(a'.segments) == ChunksOf(a.segments) + if data == [] then [] else [data]
  {
    if data != [] {
      MaybeRollTidy(a, clock);
      ShortWritesLandAll(data, shorts);
      var a1 := MaybeRoll(a, clock);
      var a' := AfterAppend(a, data, clock, shorts);
      var i := |a1.segments| - 1;
      var last := a1.segments[i];
      FlattenSnoc(last.chunks, data);
      assert a'.segments[..i] == a1.segments[..i];
      assert ChunksOf(a1.segments[..i]) + (last.chunks + [data]) == ChunksOf(a1.segments) + [data];
    }
  }

  /**
   * For every clock and every pattern of short writes without error: no append is split between files, each lies
   * contiguously in one of them, and in order of opening they are exactly what was appended.
   */
  lemma {:induction false} AppendsStayWhole(a: Appender, calls: seq<Call>)
    requires Tidy(a) && forall k :: 0 <= k < |calls| ==> NoError(calls[k].shorts)
    ensures Tidy(AppendAll(a, calls))
    ensures ChunksOf(AppendAll(a, calls).segments) == ChunksOf(a.segments) + NonEmpty(calls)
    decreases |calls|
  {
    hide ChunksOf, AfterAppend, Flatten;
    if calls == [] {
      assert ChunksOf(a.segments) + [] == ChunksOf(a.segments);
    } else {
      AppendTidy(a, calls[0].data, calls[0].clock, calls[0].shorts);
      AppendsStayWhole(AfterAppend(a, calls[0].data, calls[0].clock, calls[0].shorts), calls[1..]);
      var first := if calls[0].data == [] then [] else [calls[0].data];
      assert (ChunksOf(a.segments) + first) + NonEmpty(calls[1..]) == ChunksOf(a.segments) + (first + NonEmpty(calls[1..]));
    }
  }

  lemma {:induction false} ContentsAreChunks(segments: seq<Segment>)
    requires forall i :: 0 <= i < |segments| ==> segments[i].data == Flatten(segments[i].chunks)
    ensures ContentsOf(segments) == Flatten(ChunksOf(segments))
  {
    if segments != [] {
      var init := segments[..|segments| - 1];
      ContentsAreChunks(init);
      FlattenConcat(ChunksOf(init), segments[|segments| - 1].chunks);
    }
  }

  /** The files' contents, in order of opening, are the appended bytes. */
  lemma ContentsAreAppends(a: Appender, calls: seq<Call>)
    requires Tidy(a) && forall k :: 0 <= k < |calls| ==> NoError(calls[k].shorts)
    ensures ContentsOf(AppendAll(a, calls).segments) == ContentsOf(a.segments) + Flatten(NonEmpty(calls))
  {
    AppendsStayWhole(a, calls);
    ContentsAreChunks(a.segments);
    ContentsAreChunks(AppendAll(a, calls).segments);
    FlattenConcat(ChunksOf(a.segments), NonEmpty(calls));
  }

  // ----- size of rolled files -----

  /** The appends in one file, which may have been opened more than once. */
  function FileChunks(segments: seq<Segment>, second: nat): seq<Bytes>
  {
    if segments == [] then []
    else
      var last := segments[|segments| - 1];
      FileChunks(segments[..|segments| - 1], second) + if last.sink == File(second) then last.chunks else []
  }

  function FileSize(a: Appender, second: nat): nat { |Flatten(FileChunks(a.segments, second))| }

  /** Without its last append the file is within the roll size. */
  predicate FileWithin(a: Appender, second: nat)
  {
    var chunks := FileChunks(a.segments, second);
    chunks != [] ==> |Flatten(chunks[..|chunks| - 1])| <= a.rollSize
  }

  ghost predicate Bounded(a: Appender)
  {
    forall second: nat :: FileWithin(a, second)
  }

  predicate Rolls(a: Appender, clock: Clock)
    requires a.rollPeriod > 0
  {
    && clock.now != a.lastRoll
    && (a.writtenBytes > a.rollSize
        || (a.count + 1 >= a.checkEvery && PeriodStart(clock.check, a.rollPeriod) != a.thisPeriod))
  }

  /** Where the next append goes. */
  function Target(a: Appender, clock: Clock): Sink
    requires a.rollPeriod > 0 && a.segments != []
  {
    if Rolls(a, clock) then if clock.opens then File(clock.name) else Standard
    else a.segments[|a.segments| - 1].sink
  }

  /** The file it goes to, however often it was opened, has not outgrown the roll size yet. */
  predicate TargetWithin(a: Appender, clock: Clock)
    requires a.rollPeriod > 0 && a.segments != []
  {
    Target(a, clock).File? ==> FileSize(a, Target(a, clock).second) <= a.rollSize
  }

  lemma MaybeRollTarget(a: Appender, clock: Clock, second: nat)
    requires Tidy(a)
    ensures var a1 := MaybeRoll(a, clock);
      && a1.segments != [] && a1.segments[|a1.segments| - 1].sink == Target(a, clock) && a1.rollSize == a.rollSize
      && FileChunks(a1.segments, second) == FileChunks(a.segments, second)
  {
    hide PeriodStart, Flatten;
    var newest := Segment(if clock.opens then File(clock.name) else Standard, [], []);
    assert (a.segments + [newest])[..|a.segments|] == a.segments;
    assert FileChunks(a.segments + [newest], second) == FileChunks(a.segments, second) + [];
  }

  lemma AppendFile(a: Appender, data: Bytes, clock: Clock, shorts: seq<Short>, second: nat)
    requires Tidy(a) && NoError(shorts) && data != []
    ensures var a' := AfterAppend(a, data, clock, shorts);
      && a'.rollSize == a.rollSize
      && FileChunks(a'.segments, second) ==
           FileChunks(a.segments, second) + if Target(a, clock) == File(second) then [data] else []
  {
    hide MaybeRoll, Target, Landed, Flatten;
    MaybeRollTidy(a, clock);
    MaybeRollTarget(a, clock, second);
    ShortWritesLandAll(data, shorts);
    var a1, a' := MaybeRoll(a, clock), AfterAppend(a, data, clock, shorts);
    var i := |a1.segments| - 1;
    assert a'.segments[..i] == a1.segments[..i];
    Regroup(FileChunks(a1.segments[..i], second), a1.segments[i].chunks, [data]);
  }

  lemma GrownWithin(a: Appender, a': Appender, second: nat, data: Bytes)
    requires a'.rollSize == a.rollSize
    requires FileChunks(a'.segments, second) == FileChunks(a.segments, second) + [data]
    ensures FileWithin(a', second) <==> FileSize(a, second) <= a.rollSize
    ensures FileWithin(a', second) ==> FileWithin(a, second)
  {
    hide FileChunks, Flatten;
    var chunks := FileChunks(a.segments, second);
    assert (chunks + [data])[..|chunks|] == chunks;
    if chunks != [] {
      var n := |chunks| - 1;
      assert chunks[..n] + [chunks[n]] == chunks;
      FlattenSnoc(chunks[..n], chunks[n]);
    }
  }

  /**
   * For every state and clock: after an append all files are within the bound exactly if they were and the file it goes
   * to had not outgrown the roll size. Neither a second roll within one second nor the reopening of a full file passes.
   */
  lemma BoundKeptIff(a: Appender, data: Bytes, clock: Clock, shorts: seq<Short>)
    requires Tidy(a) && NoError(shorts) && data != []
    ensures Bounded(AfterAppend(a, data, clock, shorts)) <==> Bounded(a) && TargetWithin(a, clock)
  {
    hide AfterAppend, FileWithin, Target, Flatten;
    var a', target := AfterAppend(a, data, clock, shorts), Target(a, clock);
    forall second: nat
      ensures if target == File(second) then
          && (FileWithin(a', second) <==> FileSize(a, second) <= a.rollSize)
          && (FileWithin(a', second) ==> FileWithin(a, second))
        else FileWithin(a', second) <==> FileWithin(a, second)
    {
      AppendFile(a, data, clock, shorts, second);
      if target == File(second) {
        GrownWithin(a, a', second, data);
      } else {
        SameWithin(a, a', second);
      }
    }
    assert target.File? ==> (FileWithin(a', target.second) <==> TargetWithin(a, clock));
  }

  lemma SameWithin(a: Appender, a': Appender, second: nat)
    requires a'.rollSize == a.rollSize && FileChunks(a'.segments, second) == FileChunks(a.segments, second) + []
    ensures FileWithin(a', second) <==> FileWithin(a, second)
  {
    assert FileChunks(a.segments, second) + [] == FileChunks(a.segments, second);
  }

  predicate TargetsWithin(a: Appender, calls: seq<Call>)
    requires a.rollPeriod > 0 && a.segments != []
    decreases |calls|
  {
    calls == [] ||
    ((calls[0].data != [] ==> TargetWithin(a, calls[0].clock))
     && TargetsWithin(AfterAppend(a, calls[0].data, calls[0].clock, calls[0].shorts), calls[1..]))
  }

  /** Over every run: the files end within the bound exactly if no append went to a file that had outgrown it. */
  lemma {:induction false} FilesBoundedIff(a: Appender, calls: seq<Call>)
    requires Tidy(a) && forall k :: 0 <= k < |calls| ==> NoError(calls[k].shorts)
    ensures Bounded(AppendAll(a, calls)) <==> Bounded(a) && TargetsWithin(a, calls)
    decreases |calls|
  {
    hide Bounded, TargetWithin, Flatten;
    if calls != [] {
      var call := calls[0];
      var a' := AfterAppend(a, call.data, call.clock, call.shorts);
      AppendTidy(a, call.data, call.clock, call.shorts);
      FilesBoundedIff(a', calls[1..]);
      if call.data != [] {
        BoundKeptIff(a, call.data, call.clock, call.shorts);
      }
    }
  }

  /** No earlier opening was of the file that is open now. */
  predicate OpenAlone(a: Appender)
    requires a.segments != []
  {
    var i := |a.segments| - 1;
    a.segments[i].sink.File? ==> forall k :: 0 <= k < i ==> a.segments[k].sink != a.segments[i].sink
  }

  /** Rolling by size is not held back by a clock that still shows the second of the last roll. */
  predicate ClockLetsRoll(a: Appender, clock: Clock)
    requires a.segments != []
  {
    a.writtenBytes > a.rollSize && a.segments[|a.segments| - 1].sink.File? ==> clock.now != a.lastRoll
  }

  /** A file that is opened has not outgrown the roll size by earlier openings. */
  predicate OpensWithin(a: Appender, clock: Clock)
    requires a.rollPeriod > 0
  {
    Rolls(a, clock) && clock.opens ==> FileSize(a, clock.name) <= a.rollSize
  }

  lemma {:induction false} UnusedIsEmpty(segments: seq<Segment>, second: nat)
    requires forall k :: 0 <= k < |segments| ==> segments[k].sink != File(second)
    ensures FileChunks(segments, second) == []
  {
    if segments != [] {
      UnusedIsEmpty(segments[..|segments| - 1], second);
    }
  }

  /** The condition in terms of what the appender looks at: written bytes, last roll, clock, and the file it opens. */
  lemma TargetWithinIff(a: Appender, clock: Clock)
    requires Tidy(a) && OpenAlone(a)
    ensures TargetWithin(a, clock) <==> ClockLetsRoll(a, clock) && OpensWithin(a, clock)
  {
    hide PeriodStart;
    var i := |a.segments| - 1;
    if a.segments[i].sink.File? {
      var second := a.segments[i].sink.second;
      UnusedIsEmpty(a.segments[..i], second);
      assert FileChunks(a.segments, second) == [] + a.segments[i].chunks == a.segments[i].chunks;
    }
  }

  /** Every file opened is a new one. */
  predicate NewNames(a: Appender, calls: seq<Call>)
    requires a.rollPeriod > 0 && a.segments != []
    decreases |calls|
  {
    calls == [] ||
    ((calls[0].data != [] ==> NewName(a, calls[0].clock))
     && NewNames(AfterAppend(a, calls[0].data, calls[0].clock, calls[0].shorts), calls[1..]))
  }

  predicate NewName(a: Appender, clock: Clock)
    requires a.rollPeriod > 0
  {
    Rolls(a, clock) && clock.opens ==> forall k :: 0 <= k < |a.segments| ==> a.segments[k].sink != File(clock.name)
  }

  /** No append of the run is held back from rolling by size. */
  predicate ClockMoves(a: Appender, calls: seq<Call>)
    requires a.rollPeriod > 0 && a.segments != []
    decreases |calls|
  {
    calls == [] ||
    ((calls[0].data != [] ==> ClockLetsRoll(a, calls[0].clock))
     && ClockMoves(AfterAppend(a, calls[0].data, calls[0].clock, calls[0].shorts), calls[1..]))
  }

  lemma NewNameWithin(a: Appender, clock: Clock)
    requires Tidy(a) && OpenAlone(a) && NewName(a, clock)
    ensures TargetWithin(a, clock) <==> ClockLetsRoll(a, clock)
  {
    hide TargetWithin, ClockLetsRoll, PeriodStart;
    TargetWithinIff(a, clock);
    if Rolls(a, clock) && clock.opens {
      UnusedIsEmpty(a.segments, clock.name);
    }
  }

  lemma StaysAlone(a: Appender, call: Call)
    requires Tidy(a) && OpenAlone(a) && call.data != [] && NewName(a, call.clock)
    ensures var a' := AfterAppend(a, call.data, call.clock, call.shorts); a'.segments != [] && OpenAlone(a')
  {
    hide Landed, PeriodStart, Flatten;
  }

  lemma {:induction false} NewNamesWithin(a: Appender, calls: seq<Call>)
    requires Tidy(a) && OpenAlone(a) && NewNames(a, calls)
    requires forall k :: 0 <= k < |calls| ==> NoError(calls[k].shorts)
    ensures TargetsWithin(a, calls) <==> ClockMoves(a, calls)
    decreases |calls|
  {
    hide TargetWithin, ClockLetsRoll, NewName, Flatten, OpenAlone;
    if calls != [] {
      AppendTidy(a, calls[0].data, calls[0].clock, calls[0].shorts);
      if calls[0].data != [] {
        NewNameWithin(a, calls[0].clock);
        StaysAlone(a, calls[0]);
      }
      NewNamesWithin(AfterAppend(a, calls[0].data, calls[0].clock, calls[0].shorts), calls[1..]);
    }
  }

  /**
   * When every name opened is new, no file exceeds the roll size by more than its last append exactly if the clock
   * never held back a roll by size.
   */
  lemma FilesBoundedByClockIff(a: Appender, calls: seq<Call>)
    requires Tidy(a) && OpenAlone(a) && NewNames(a, calls)
    requires forall k :: 0 <= k < |calls| ==> NoError(calls[k].shorts)
    ensures Bounded(AppendAll(a, calls)) <==> Bounded(a) && ClockMoves(a, calls)
  {
    hide Bounded, Tidy;
    NewNamesWithin(a, calls);
    FilesBoundedIff(a, calls);
  }

  /** The clock is read once for the roll and again for the name, so a file can be opened twice and outgrow the bound. */
  lemma ReopenedFileOutgrows()
    ensures var a := Appender(0, 1, 1024, 0, 10, 10, 0, [Segment(File(11), [], [])]);
      var calls := [Call("ab", Clock(10, 10, 10, true), []), Call("cd", Clock(11, 11, 11, true), [])];
      Tidy(a) && Bounded(a) && OpenAlone(a) && !Bounded(AppendAll(a, calls))
  {
    var a := Appender(0, 1, 1024, 0, 10, 10, 0, [Segment(File(11), [], [])]);
    var calls := [Call("ab", Clock(10, 10, 10, true), []), Call("cd", Clock(11, 11, 11, true), [])];
    var a1 := AfterAppend(a, "ab", Clock(10, 10, 10, true), []);
    assert [] + "ab" == "ab" && [] + ["ab"] == ["ab"];
    assert a1.segments == [Segment(File(11), "ab", ["ab"])];
    assert a1 == a.(count := 1, writtenBytes := 2, segments := [Segment(File(11), "ab", ["ab"])]);
    assert Target(a1, calls[1].clock) == File(11);
    assert a1.segments[..0] == [];
    assert FileChunks(a1.segments, 11) == [] + ["ab"] == ["ab"];
    FlattenOne("ab");
    assert !TargetWithin(a1, calls[1].clock);
    assert a.segments[..0] == [];
    assert forall second: nat :: FileChunks(a.segments, second) == [];
    FilesBoundedIff(a, calls);
  }

  // ----- rolling by period -----

  function Times(k: nat, period: nat): nat { k * period }

  ghost predicate IsMultiple(p: nat, period: nat)
  {
    exists k: nat :: p == Times(k, period)
  }

  /** A period begins at a multiple of its length, at or before every second in it, and ends before the next begins. */
  lemma PeriodContains(t: nat, period: nat)
    requires period > 0
    ensures var p := PeriodStart(t, period); IsMultiple(p, period) && p <= t < p + period
  {
    assert PeriodStart(t, period) == Times(t / period, period);
    DivMod(t, period);
  }

  lemma DivMod(t: nat, d: nat)
    requires d > 0
    ensures t / d * d <= t < t / d * d + d
  {
    assert t == d * (t / d) + t % d;
  }

  lemma {:induction false} Later(a: nat, b: nat, m: nat)
    requires a < b
    ensures Times(a, m) + m <= Times(b, m)
    decreases b - a
  {
    assert (a + 1) * m == a * m + m;
    if a + 1 < b {
      Later(a + 1, b, m);
    }
  }

  /** A period that contains a second is the one that begins at its start. */
  lemma PeriodIsUnique(p: nat, t: nat, period: nat)
    requires period > 0 && IsMultiple(p, period)
    ensures p <= t < p + period <==> PeriodStart(t, period) == p
  {
    hide PeriodStart, Times;
    PeriodContains(t, period);
    var a: nat :| p == Times(a, period);
    var b: nat :| PeriodStart(t, period) == Times(b, period);
    if a < b {
      Later(a, b, period);
    } else if b < a {
      Later(b, a, period);
    }
  }

  /** The open file's period is the one in which it was opened. */
  ghost predicate PeriodOfRoll(a: Appender)
  {
    a.rollPeriod > 0 && IsMultiple(a.thisPeriod, a.rollPeriod) && a.thisPeriod <= a.lastRoll < a.thisPeriod + a.rollPeriod
  }

  /** The clock, as read for the check, is in the open file's period. */
  predicate InOpenPeriod(a: Appender, clock: Clock)
  {
    a.thisPeriod <= clock.check < a.thisPeriod + a.rollPeriod
  }

  /**
   * An append opens a new file exactly if the clock has left the second of the last roll and the open file is over size,
   * or the check that is due every `checkEvery` appends finds the clock outside the open file's period.
   */
  lemma AppendOpensIff(a: Appender, data: Bytes, clock: Clock, shorts: seq<Short>)
    requires PeriodOfRoll(a) && a.segments != [] && data != []
    ensures var a' := AfterAppend(a, data, clock, shorts); var n := |a.segments|;
      var opens := && clock.now != a.lastRoll
                   && (a.writtenBytes > a.rollSize || (a.count + 1 >= a.checkEvery && !InOpenPeriod(a, clock)));
      && PeriodOfRoll(a')
      && a'.lastRoll == (if opens then clock.now else a.lastRoll)
      && a'.count == (if a.writtenBytes > a.rollSize then a.count else if a.count + 1 < a.checkEvery then a.count + 1 else 0)
      && a'.rollSize == a.rollSize && a'.rollPeriod == a.rollPeriod && a'.checkEvery == a.checkEvery
      && if opens
         then |a'.segments| == n + 1 && a'.segments[..n] == a.segments
              && a'.segments[n].sink == (if clock.opens then File(clock.name) else Standard)
         else |a'.segments| == n && a'.segments[..n - 1] == a.segments[..n - 1]
              && a'.segments[n - 1].sink == a.segments[n - 1].sink
  {
    hide Landed, PeriodStart, IsMultiple;
    PeriodIsUnique(a.thisPeriod, clock.check, a.rollPeriod);
    PeriodContains(clock.now, a.rollPeriod);
  }

  lemma {:induction false} PeriodStaysOfRoll(a: Appender, calls: seq<Call>)
    requires PeriodOfRoll(a) && a.segments != []
    ensures PeriodOfRoll(AppendAll(a, calls))
    decreases |calls|
  {
    hide IsMultiple;
    if calls != [] {
      var call := calls[0];
      if call.data != [] {
        AppendOpensIff(a, call.data, call.clock, call.shorts);
      }
      PeriodStaysOfRoll(AfterAppend(a, call.data, call.clock, call.shorts), calls[1..]);
    }
  }

  /** However much is written within one second, at most one file is opened in it. */
  lemma {:induction false} OneOpeningPerSecond(a: Appender, calls: seq<Call>, second: nat)
    requires PeriodOfRoll(a) && a.segments != [] && forall k :: 0 <= k < |calls| ==> calls[k].clock.now == second
    ensures |AppendAll(a, calls).segments| <= |a.segments| + if a.lastRoll == second then 0 else 1
    decreases |calls|
  {
    hide IsMultiple;
    if calls != [] {
      var call := calls[0];
      if call.data != [] {
        AppendOpensIff(a, call.data, call.clock, call.shorts);
      }
      hide AfterAppend;
      EmptyAppend(a, call);
      OneOpeningPerSecond(AfterAppend(a, call.data, call.clock, call.shorts), calls[1..], second);
    }
  }

  /** An append of nothing changes nothing, not even the count. */
  lemma EmptyAppend(a: Appender, call: Call)
    requires a.rollPeriod > 0 && a.segments != []
    ensures call.data == [] ==> AfterAppend(a, call.data, call.clock, call.shorts) == a
  {
  }

  /** The bytes of short writes that the stream took. */
  function Sum(shorts: seq<Short>): nat
  {
    if shorts == [] then 0 else shorts[0].n + Sum(shorts[1..])
  }

  /** After an error the bytes that got through stay, those of the failing call are not counted, and no more are tried. */
  lemma {:induction false} ErrorStops(data: Bytes, before: seq<Short>, n: nat, rest: seq<Short>)
    requires NoError(before) && Sum(before) + n < |data|
    ensures Landed(data, before + [Short(n, true)] + rest) == (data[..Sum(before) + n], Sum(before))
    decreases |before|
  {
    var shorts := before + [Short(n, true)] + rest;
    if before == [] {
      assert shorts[0] == Short(n, true);
    } else {
      var m := before[0].n;
      assert shorts[0] == before[0] && shorts[1..] == before[1..] + [Short(n, true)] + rest;
      ErrorStops(data[m..], before[1..], n, rest);
      assert data[..m] + data[m..][..Sum(before[1..]) + n] == data[..Sum(before) + n];
    }
  }

  /** The call carries data and finds the clock in another period and second than the open file's. */
  predicate InLaterPeriod(a: Appender, call: Call)
  {
    call.data != [] && !InOpenPeriod(a, call.clock) && call.clock.now != a.lastRoll
  }

  lemma AppendRollsOrCounts(a: Appender, call: Call)
    requires a.rollPeriod > 0 && a.segments != [] && InLaterPeriod(a, call)
    ensures AfterAppend(a, call.data, call.clock, call.shorts).rollPeriod == a.rollPeriod
    ensures var a' := AfterAppend(a, call.data, call.clock, call.shorts);
      if a.writtenBytes > a.rollSize || a.count + 1 >= a.checkEvery then |a'.segments| == |a.segments| + 1
      else |a'.segments| == |a.segments| && a'.count == a.count + 1 && a'.checkEvery == a.checkEvery
           && a'.thisPeriod == a.thisPeriod && a'.lastRoll == a.lastRoll
  {
    hide Landed, PeriodStart;
    PeriodContains(call.clock.check, a.rollPeriod);
  }

  lemma {:induction false} FilesStayOpened(a: Appender, calls: seq<Call>)
    requires a.rollPeriod > 0 && a.segments != []
    ensures |AppendAll(a, calls).segments| >= |a.segments|
    decreases |calls|
  {
    hide Landed, PeriodStart;
    if calls != [] {
      FilesStayOpened(AfterAppend(a, calls[0].data, calls[0].clock, calls[0].shorts), calls[1..]);
    }
  }

  /** Once the clock has left the open file's period, a new file is opened within `checkEvery` appends. */
  lemma {:induction false} PeriodRollsInTime(a: Appender, calls: seq<Call>)
    requires a.rollPeriod > 0 && a.segments != [] && calls != [] && a.count + |calls| >= a.checkEvery
    requires forall k :: 0 <= k < |calls| ==> InLaterPeriod(a, calls[k])
    ensures |AppendAll(a, calls).segments| > |a.segments|
    decreases |calls|
  {
    hide AfterAppend;
    var a' := AfterAppend(a, calls[0].data, calls[0].clock, calls[0].shorts);
    AppendRollsOrCounts(a, calls[0]);
    FilesStayOpened(a', calls[1..]);
    if |a'.segments| == |a.segments| {
      forall k | 0 <= k < |calls[1..]| ensures InLaterPeriod(a', calls[1..][k]) {
        assert InLaterPeriod(a, calls[k + 1]);
      }
      PeriodRollsInTime(a', calls[1..]);
    }
  }

  lemma NoContents()
    ensures ContentsOf([]) == []
  {
  }

  lemma FirstFile(a: Appender, sink: Sink)
    requires a.segments == [Segment(sink, [], [])] && a.rollPeriod > 0 && a.writtenBytes == 0
    ensures Tidy(a) && Bounded(a) && OpenAlone(a) && ContentsOf(a.segments) == []
  {
    assert a.segments[..0] == [];
    assert forall second: nat :: FileChunks(a.segments, second) == [];
  }

  lemma {:induction false} FirstRoll(rollSize: nat, rollPeriod: nat, checkEvery: nat, clock: Clock)
    requires rollPeriod > 0
    ensures var a := AfterRoll(Appender(rollSize, rollPeriod, checkEvery, 0, 0, 0, 0, []), clock);
      && ContentsOf(a.segments) == [] && (clock.now == 0 ==> a.segments == [])
      && (clock.now != 0 ==> a.segments != [] && Tidy(a) && Bounded(a) && OpenAlone(a) && PeriodOfRoll(a))
  {
    hide PeriodStart, IsMultiple, Tidy, Bounded, OpenAlone, ContentsOf;
    PeriodContains(clock.now, rollPeriod);
    var a := AfterRoll(Appender(rollSize, rollPeriod, checkEvery, 0, 0, 0, 0, []), clock);
    if clock.now != 0 {
      assert a.segments == [Segment(if clock.opens then File(clock.name) else Standard, [], [])];
      FirstFile(a, a.segments[0].sink);
    } else {
      NoContents();
    }
  }

  // ----- the class -----

  function Joined(bytes: Bytes, written: nat, rest: (Bytes, nat)): (Bytes, nat)
  {
    (bytes + rest.0, written + rest.1)
  }

  lemma NothingLeft(bytes: Bytes, written: nat, shorts: seq<Short>)
    ensures Joined(bytes, written, Landed([], shorts)) == (bytes, written)
  {
    assert bytes + [] == bytes;
  }

  lemma {:induction false} LandedShort(data: Bytes, shorts: seq<Short>)
    requires shorts != [] && shorts[0].n < |data|
    ensures var n := shorts[0].n; var rest := Landed(data[n..], shorts[1..]);
      Landed(data, shorts) == if shorts[0].error then (data[..n], 0) else (data[..n] + rest.0, n + rest.1)
  {
  }

  /** What one call of `fwrite` adds to the bytes so far, in terms of what is left to land. */
  lemma {:induction false} LandedStep(data: Bytes, written: nat, shorts: seq<Short>, call: nat, bytes: Bytes)
    requires written < |data| && call <= |shorts|
    ensures var before := Joined(bytes, written, Landed(data[written..], shorts[call..]));
      if call < |shorts| && shorts[call].n < |data| - written then
        var n := shorts[call].n;
        var bytes' := bytes + data[written..written + n];
        before == if shorts[call].error then (bytes', written)
                  else Joined(bytes', written + n, Landed(data[written + n..], shorts[call + 1..]))
      else before == (bytes + data[written..|data|], |data|)
  {
    var left, tail := data[written..], shorts[call..];
    assert left == data[written..|data|];
    if call < |shorts| && shorts[call].n < |left| {
      var n := shorts[call].n;
      assert tail[0] == shorts[call] && tail[1..] == shorts[call + 1..];
      assert left[..n] == data[written..written + n] && left[n..] == data[written + n..];
      LandedShort(left, tail);
      hide Landed;
      if !shorts[call].error {
        Regroup(bytes, left[..n], Landed(left[n..], tail[1..]).0);
      }
    }
  }

  class FileAppender {
    const rollSizeByte: nat
    const rollPeriodSec: nat
    const checkEvery: nat
    var count: nat
    var lastRollTime: nat
    var thisRollPeriod: nat
    var writtenBytes: nat
    /** Contents per opening, the open one last; `chunks` is only a history. */
    var segments: seq<Segment>

    ghost predicate Valid()
      reads this
    {
      rollPeriodSec > 0 && segments != []
    }

    ghost function State(): Appender
      reads this
    {
      Appender(rollSizeByte, rollPeriodSec, checkEvery, count, lastRollTime, thisRollPeriod, writtenBytes, segments)
    }

    /** The first file is opened unless the clock still reads zero, which looks like the last roll. */
    constructor (rollSize: nat, rollPeriod: nat, checkEvery: nat, clock: Clock)
      requires rollPeriod > 0
      ensures State() == AfterRoll(Appender(rollSize, rollPeriod, checkEvery, 0, 0, 0, 0, []), clock)
      ensures rollSizeByte == rollSize && rollPeriodSec == rollPeriod && this.checkEvery == checkEvery
      ensures ContentsOf(segments) == [] && (clock.now == 0 ==> segments == [])
      ensures clock.now != 0 ==> Valid() && Tidy(State()) && Bounded(State()) && OpenAlone(State()) && PeriodOfRoll(State())
    {
      hide Tidy, Bounded, OpenAlone, ContentsOf, PeriodOfRoll, PeriodStart;
      rollSizeByte, rollPeriodSec, this.checkEvery := rollSize, rollPeriod, checkEvery;
      count, writtenBytes, lastRollTime, thisRollPeriod, segments := 0, 0, 0, 0, [];
      new;
      RollFile(clock);
      FirstRoll(rollSize, rollPeriod, checkEvery, clock);
    }

    method RollFile(clock: Clock)
      requires rollPeriodSec > 0
      modifies this
      ensures State() == AfterRoll(old(State()), clock)
    {
      if lastRollTime != clock.now {
        lastRollTime := clock.now;
        thisRollPeriod := clock.now / rollPeriodSec * rollPeriodSec;
        segments := segments + [Segment(if clock.opens then File(clock.name) else Standard, [], [])];
        writtenBytes := 0;
      }
    }

    method Append(data: Bytes, clock: Clock, shorts: seq<Short>)
      requires Valid()
      modifies this
      ensures Valid() && State() == AfterAppend(old(State()), data, clock, shorts)
    {
      if data == [] {
        return;
      }
      if writtenBytes > rollSizeByte {
        RollFile(clock);
      } else {
        count := count + 1;
        if count >= checkEvery {
          count := 0;
          var thisPeriod := clock.check / rollPeriodSec * rollPeriodSec;
          if thisPeriod != thisRollPeriod {
            RollFile(clock);
          }
        }
      }
      assert State() == MaybeRoll(old(State()), clock);
      var bytes, written := Write(data, shorts);
      var i := |segments| - 1;
      segments := segments[i := Segment(segments[i].sink, segments[i].data + bytes, segments[i].chunks + [bytes])];
      writtenBytes := writtenBytes + written;
    }

    /** The loop around `fwrite`: it goes on after a short write and stops at an error. */
    method Write(data: Bytes, shorts: seq<Short>) returns (bytes: Bytes, written: nat)
      ensures (bytes, written) == Landed(data, shorts)
    {
      hide Landed;
      bytes, written := [], 0;
      var call := 0;
      assert data[0..] == data && shorts[0..] == shorts && [] + Landed(data, shorts).0 == Landed(data, shorts).0;
      while written != |data|
        invariant 0 <= written <= |data| && call <= |shorts|
        invariant Joined(bytes, written, Landed(data[written..], shorts[call..])) == Landed(data, shorts)
        decreases |shorts| - call, |data| - written
      {
        LandedStep(data, written, shorts, call, bytes);
        var remain := |data| - written;
        var n, error := remain, false;
        if call < |shorts| && shorts[call].n < remain {
          n, error := shorts[call].n, shorts[call].error;
        }
        bytes := bytes + data[written..written + n];
        if n != remain && error {
          break;
        }
        written := written + n;
        if call < |shorts| {
          call := call + 1;
        }
        if n == remain {
          assert data[written..] == [];
          NothingLeft(bytes, written, shorts[call..]);
        }
      }
      if written == |data| {
        assert data[written..] == [];
        NothingLeft(bytes, written, shorts[call..]);
      }
    }
  }
}
