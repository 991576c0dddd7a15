/** From `log` to the files: the asynchronous logger writing through the rolling appender. */
module EndToEnd {
  import opened Sequences
  import opened Checks
  import L = AsyncLog
  import F = FileLog

  /** What a file is made of: whole messages, and notices with the number of dropped buffers. */
  datatype Piece = Logged(text: F.Bytes) | Told(dropped: nat, text: F.Bytes)

  /** Messages as pieces. */
  function AsLogged(msgs: seq<L.Message>): seq<Piece>
  {
    seq(|msgs|, k requires 0 <= k < |msgs| => Logged(msgs[k]))
  }

  function Texts(pieces: seq<Piece>): seq<F.Bytes>
  {
    seq(|pieces|, k requires 0 <= k < |pieces| => pieces[k].text)
  }

  /** The pieces of one chunk; `text` is what the notice reads, time and all, if it is one. */
  function Pieces(c: L.Chunk, text: F.Bytes): seq<Piece>
  {
    match c
    case Data(msgs) => AsLogged(msgs)
    case Notice(n) => [Told(n, text)]
  }

  function ChunkBytes(c: L.Chunk, text: F.Bytes): F.Bytes
  {
    Flatten(Texts(Pieces(c, text)))
  }

  function PiecesAll(output: seq<L.Chunk>, texts: seq<F.Bytes>): seq<Piece>
    requires |texts| == |output|
  {
    if output == [] then []
    else
      var n := |output| - 1;
      PiecesAll(output[..n], texts[..n]) + Pieces(output[n], texts[n])
  }

  function ChunkBytesAll(output: seq<L.Chunk>, texts: seq<F.Bytes>): (r: seq<F.Bytes>)
    requires |texts| == |output|
    ensures |r| == |output|
  {
    seq(|output|, k requires 0 <= k < |output| => ChunkBytes(output[k], texts[k]))
  }

  // ----- messages and notices among the pieces -----

  function LoggedOf(pieces: seq<Piece>): seq<L.Message>
  {
    if pieces == [] then []
    else
      var n := |pieces| - 1;
      LoggedOf(pieces[..n]) + if pieces[n].Logged? then [pieces[n].text] else []
  }

  function ToldOf(pieces: seq<Piece>): nat
  {
    if pieces == [] then 0
    else
      var n := |pieces| - 1;
      ToldOf(pieces[..n]) + if pieces[n].Told? then pieces[n].dropped else 0
  }

  lemma {:induction false} PiecesConcat(a: seq<Piece>, b: seq<Piece>)
    ensures LoggedOf(a + b) == LoggedOf(a) + LoggedOf(b) && ToldOf(a + b) == ToldOf(a) + ToldOf(b)
    decreases |b|
  {
    if b == [] {
      assert a + b == a;
    } else {
      var n := |b| - 1;
      assert (a + b)[..|a| + n] == a + b[..n];
      PiecesConcat(a, b[..n]);
    }
  }

  lemma {:induction false} LoggedBack(msgs: seq<L.Message>)
    ensures LoggedOf(AsLogged(msgs)) == msgs && ToldOf(AsLogged(msgs)) == 0
  {
    if msgs != [] {
      var n := |msgs| - 1;
      assert AsLogged(msgs)[..n] == AsLogged(msgs[..n]);
      LoggedBack(msgs[..n]);
      assert msgs[..n] + [msgs[n]] == msgs;
    }
  }

  lemma OnePiece(p: Piece)
    ensures LoggedOf([p]) == (if p.Logged? then [p.text] else []) && ToldOf([p]) == if p.Told? then p.dropped else 0
  {
    assert [p][..0] == [];
  }

  /** Without the notices the pieces are the messages the appender was handed, and the notices count as they say. */
  lemma {:induction false} PiecesArePayload(output: seq<L.Chunk>, texts: seq<F.Bytes>)
    requires |texts| == |output|
    ensures LoggedOf(PiecesAll(output, texts)) == L.Payload(output)
    ensures ToldOf(PiecesAll(output, texts)) == L.Confessed(output)
  {
    if output != [] {
      var n := |output| - 1;
      PiecesArePayload(output[..n], texts[..n]);
      PiecesConcat(PiecesAll(output[..n], texts[..n]), Pieces(output[n], texts[n]));
      match output[n]
      case Data(msgs) => LoggedBack(msgs);
      case Notice(dropped) => OnePiece(Told(dropped, texts[n]));
    }
  }

  // ----- bytes -----

  lemma TextsConcat(a: seq<Piece>, b: seq<Piece>)
    ensures Texts(a + b) == Texts(a) + Texts(b)
  {
  }

  lemma {:induction false} SameBytes(output: seq<L.Chunk>, texts: seq<F.Bytes>)
    requires |texts| == |output|
    ensures Flatten(Texts(PiecesAll(output, texts))) == Flatten(ChunkBytesAll(output, texts))
  {
    if output != [] {
      var n := |output| - 1;
      var rest, last := PiecesAll(output[..n], texts[..n]), Pieces(output[n], texts[n]);
      SameBytes(output[..n], texts[..n]);
      TextsConcat(rest, last);
      FlattenConcat(Texts(rest), Texts(last));
      assert ChunkBytesAll(output, texts) == ChunkBytesAll(output[..n], texts[..n]) + [ChunkBytes(output[n], texts[n])];
      FlattenSnoc(ChunkBytesAll(output[..n], texts[..n]), ChunkBytes(output[n], texts[n]));
    }
  }

  lemma PiecesLast(output: seq<L.Chunk>, texts: seq<F.Bytes>)
    requires |texts| == |output| > 0
    ensures var n := |output| - 1;
      PiecesAll(output, texts) == PiecesAll(output[..n], texts[..n]) + Pieces(output[n], texts[n])
  {
  }

  lemma {:induction false} PiecesSplit(output: seq<L.Chunk>, texts: seq<F.Bytes>, n: nat)
    requires |texts| == |output| && n <= |output|
    ensures PiecesAll(output, texts) == PiecesAll(output[..n], texts[..n]) + PiecesAll(output[n..], texts[n..])
    decreases |output|
  {
    hide PiecesAll, Pieces;
    if n == |output| {
      assert output[..n] == output && texts[..n] == texts;
      NoPieces(output[n..], texts[n..]);
      assert PiecesAll(output, texts) == PiecesAll(output, texts) + [];
    } else {
      var m := |output| - 1;
      PiecesLast(output, texts);
      PiecesLast(output[n..], texts[n..]);
      PiecesSplit(output[..m], texts[..m], n);
      var out, txt := output[..m][n..], texts[..m][n..];
      assert output[..m][..n] == output[..n] && texts[..m][..n] == texts[..n];
      assert output[n..][..m - n] == out && texts[n..][..m - n] == txt;
      Regroup(PiecesAll(output[..n], texts[..n]), PiecesAll(out, txt), Pieces(output[m], texts[m]));
    }
  }

  lemma NoPieces(output: seq<L.Chunk>, texts: seq<F.Bytes>)
    requires |texts| == |output| == 0
    ensures PiecesAll(output, texts) == []
  {
  }

  lemma FlattenNothing<T>()
    ensures Flatten<T>([]) == []
  {
  }

  /** Files whose appends are these chunks divide the messages and notices among them, each whole. */
  lemma {:induction false} Divide(segments: seq<F.Segment>, output: seq<L.Chunk>, texts: seq<F.Bytes>)
    returns (pieces: seq<seq<Piece>>)
    requires |texts| == |output| && F.ChunksOf(segments) == ChunkBytesAll(output, texts)
    requires forall i :: 0 <= i < |segments| ==> segments[i].data == Flatten(segments[i].chunks)
    ensures |pieces| == |segments| && Flatten(pieces) == PiecesAll(output, texts)
    ensures forall i :: 0 <= i < |segments| ==> segments[i].data == Flatten(Texts(pieces[i]))
    decreases |segments|
  {
    hide Flatten, ChunkBytes, Texts;
    if segments == [] {
      FlattenNothing<Piece>();
      return [];
    }
    var init, last := segments[..|segments| - 1], segments[|segments| - 1];
    var n := |output| - |last.chunks|;
    PiecesSplit(output, texts, n);
    hide PiecesAll;
    assert F.ChunksOf(init) == F.ChunksOf(segments)[..n] == ChunkBytesAll(output[..n], texts[..n]);
    assert last.chunks == F.ChunksOf(segments)[n..] == ChunkBytesAll(output[n..], texts[n..]);
    var rest := Divide(init, output[..n], texts[..n]);
    SameBytes(output[n..], texts[n..]);
    pieces := rest + [PiecesAll(output[n..], texts[n..])];
    FlattenSnoc(rest, PiecesAll(output[n..], texts[n..]));
  }

  // ----- the two parts joined -----

  /** The appender is called once for each chunk with its bytes; a notice has some text, each time perhaps another. */
  predicate CallsMatch(calls: seq<F.Call>, output: seq<L.Chunk>, texts: seq<F.Bytes>)
  {
    && |calls| == |output| == |texts|
    && (forall k :: 0 <= k < |output| ==> calls[k].data == ChunkBytes(output[k], texts[k]) && F.NoError(calls[k].shorts))
    && (forall k :: 0 <= k < |output| && output[k].Notice? ==> texts[k] != [])
  }

  lemma TextsBack(msgs: seq<L.Message>)
    ensures Texts(AsLogged(msgs)) == msgs
  {
  }

  lemma ChunkNotEmpty(c: L.Chunk, text: F.Bytes)
    requires if c.Data? then Flatten(c.msgs) != [] else text != []
    ensures ChunkBytes(c, text) != []
  {
    match c
    case Data(msgs) => TextsBack(msgs);
    case Notice(n) =>
      assert Texts([Told(n, text)]) == [text];
      FlattenOne(text);
  }

  lemma {:induction false} CallsCarryAll(calls: seq<F.Call>)
    requires forall k :: 0 <= k < |calls| ==> calls[k].data != []
    ensures |F.NonEmpty(calls)| == |calls| && forall k :: 0 <= k < |calls| ==> F.NonEmpty(calls)[k] == calls[k].data
    decreases |calls|
  {
    if calls != [] {
      var rest := F.NonEmpty(calls[1..]);
      CallsCarryAll(calls[1..]);
      assert F.NonEmpty(calls) == [calls[0].data] + rest;
      assert forall k :: 1 <= k < |calls| ==> calls[1..][k - 1] == calls[k];
    }
  }

  lemma CallsCarryChunks(calls: seq<F.Call>, output: seq<L.Chunk>, texts: seq<F.Bytes>)
    requires CallsMatch(calls, output, texts) && L.Filled(output)
    ensures F.NonEmpty(calls) == ChunkBytesAll(output, texts)
  {
    hide ChunkBytes, F.NonEmpty, Flatten;
    forall k | 0 <= k < |calls| ensures calls[k].data != [] {
      ChunkNotEmpty(output[k], texts[k]);
    }
    CallsCarryAll(calls);
  }

  /** A logger that ran these steps from its construction and whose writing thread has ended. */
  predicate EndedAs(capacity: nat, steps: seq<L.Step>, s: L.Logger)
  {
    capacity > 0 && L.Run(L.NewLogger(capacity), steps) == Fine(s) && s.pc.Ended?
  }

  /**
   * Every message that was admitted and not dropped lies whole in exactly one file. In order of opening the files hold
   * those messages in the order in which they were logged, with the notices in their places, whose numbers add up to
   * the dropped buffers. The text of each notice is arbitrary.
   */
  lemma MessagesStayWhole(capacity: nat, steps: seq<L.Step>, s: L.Logger, texts: seq<F.Bytes>,
                          files: F.Appender, calls: seq<F.Call>)
    returns (pieces: seq<seq<Piece>>)
    requires EndedAs(capacity, steps, s) && CallsMatch(calls, s.output, texts)
    requires F.Tidy(files) && F.ChunksOf(files.segments) == []
    ensures var segments := F.AppendAll(files, calls).segments;
      |pieces| == |segments| && forall i :: 0 <= i < |segments| ==> segments[i].data == Flatten(Texts(pieces[i]))
    ensures Flatten(pieces) == PiecesAll(s.output, texts)
    ensures LoggedOf(Flatten(pieces)) == L.KeptMsgs(s.batches) && L.AllMsgs(s.batches) == s.admitted
    ensures ToldOf(Flatten(pieces)) == L.DroppedBuffers(s.batches)
  {
    hide L.Run, Flatten, ChunkBytes;
    L.DrainedOnExit(capacity, steps);
    F.AppendsStayWhole(files, calls);
    CallsCarryChunks(calls, s.output, texts);
    assert [] + F.NonEmpty(calls) == F.NonEmpty(calls);
    pieces := Divide(F.AppendAll(files, calls).segments, s.output, texts);
    PiecesArePayload(s.output, texts);
  }

  /** If no buffer was ever dropped, the files in order of opening hold exactly the logged bytes. */
  lemma FilesHoldEverything(capacity: nat, steps: seq<L.Step>, s: L.Logger, texts: seq<F.Bytes>,
                            files: F.Appender, calls: seq<F.Call>)
    requires EndedAs(capacity, steps, s) && CallsMatch(calls, s.output, texts) && L.DroppedBuffers(s.batches) == 0
    requires F.Tidy(files) && F.ChunksOf(files.segments) == []
    ensures F.ContentsOf(F.AppendAll(files, calls).segments) == Flatten(s.admitted)
  {
    hide L.Run, L.Payload, L.Confessed, L.KeptMsgs, L.AllMsgs, L.Filled;
    hide F.AppendAll, F.ContentsOf, F.NonEmpty, F.ChunksOf, Flatten, ChunkBytes, PiecesAll, ChunkBytesAll, Texts;
    L.DrainedOnExit(capacity, steps);
    L.NothingLostWithoutNotice(capacity, steps);
    CallsCarryChunks(calls, s.output, texts);
    SameBytes(s.output, texts);
    NoNoticeNoText(s.output, texts);
    F.ContentsAreAppends(files, calls);
    F.ContentsAreChunks(files.segments);
    FlattenNothing<char>();
    assert [] + Flatten(F.NonEmpty(calls)) == Flatten(F.NonEmpty(calls));
  }

  /** Notices announce at least one dropped buffer, so none was sent if none was dropped. */
  lemma {:induction false} NoNoticeNoText(output: seq<L.Chunk>, texts: seq<F.Bytes>)
    requires |texts| == |output| && L.Confessed(output) == 0 && L.Filled(output)
    ensures Texts(PiecesAll(output, texts)) == L.Payload(output)
  {
    if output != [] {
      var n := |output| - 1;
      NoNoticeNoText(output[..n], texts[..n]);
      TextsConcat(PiecesAll(output[..n], texts[..n]), Pieces(output[n], texts[n]));
      TextsBack(output[n].msgs);
    }
  }
}
