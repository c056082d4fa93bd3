/**
 The writer task: it takes whatever is queued, encodes the whole batch into a write buffer that
 flushes itself at a boundary, flushes what is left, and only then confirms deliveries and counts
 bytes. Batch sizes, the boundary and the fate of every flush are arbitrary here, and none of
 them may show in what the peer receives.
 */
module BatchedWriter {

  type Byte = n: nat | n < 256

  /** What an encoder does with one message: its next state, the bytes it appends to the buffer
      and whether it succeeds. A failing encoder may already have appended some. */
  datatype Encoding<S> = Encoding(codec: S, bytes: seq<Byte>, ok: bool)

  // ---- the reference: one message after another -------------------------------------------

  /** The bytes of `msgs`, encoded in order from codec state `s`. */
  function Encoded<S, M>(enc: (S, M) -> Encoding<S>, s: S, msgs: seq<M>): seq<Byte>
    decreases |msgs|
  {
    if msgs == [] then [] else
      var first := enc(s, msgs[0]);
      first.bytes + Encoded(enc, first.codec, msgs[1..])
  }

  function CodecAfter<S, M>(enc: (S, M) -> Encoding<S>, s: S, msgs: seq<M>): S
    decreases |msgs|
  {
    if msgs == [] then s else CodecAfter(enc, enc(s, msgs[0]).codec, msgs[1..])
  }

  predicate Encodes<S, M>(enc: (S, M) -> Encoding<S>, s: S, msgs: seq<M>)
    decreases |msgs|
  {
    msgs == [] || (enc(s, msgs[0]).ok && Encodes(enc, enc(s, msgs[0]).codec, msgs[1..]))
  }

  /** Where a sequence of messages is cut makes no difference to its bytes. */
  lemma {:induction false} EncodedConcat<S, M>(enc: (S, M) -> Encoding<S>, s: S, a: seq<M>, b: seq<M>)
    ensures Encoded(enc, s, a + b) == Encoded(enc, s, a) + Encoded(enc, CodecAfter(enc, s, a), b)
    ensures CodecAfter(enc, s, a + b) == CodecAfter(enc, CodecAfter(enc, s, a), b)
    ensures Encodes(enc, s, a + b) <==> Encodes(enc, s, a) && Encodes(enc, CodecAfter(enc, s, a), b)
    decreases |a|
  {
    if a == [] {
      assert a + b == b;
    } else {
      assert (a + b)[1..] == a[1..] + b;
      EncodedConcat(enc, enc(s, a[0]).codec, a[1..], b);
    }
  }

  lemma EncodedSnoc<S, M>(enc: (S, M) -> Encoding<S>, s: S, a: seq<M>, m: M)
    ensures var last := enc(CodecAfter(enc, s, a), m);
      && Encoded(enc, s, a + [m]) == Encoded(enc, s, a) + last.bytes
      && CodecAfter(enc, s, a + [m]) == last.codec
      && (Encodes(enc, s, a + [m]) <==> Encodes(enc, s, a) && last.ok)
  {
    EncodedConcat(enc, s, a, [m]);
    assert [m][1..] == [];
  }

  // ---- the framed writer ------------------------------------------------------------------

  /** A socket behind a write buffer. `fate(n)` is what the socket does to the n-th flush: it
      takes everything, or fails (or is timed out) after some bytes. */
  datatype Fate = Taken | Cut(after: nat)

  class FramedWrite<S(!new), M(!new)> {
    const encode: (S, M) -> Encoding<S>
    const boundary: nat
    const fate: nat -> Fate
    var codec: S
    var buffer: seq<Byte>
    var socket: seq<Byte>
    var flushes: nat

    constructor (encode: (S, M) -> Encoding<S>, boundary: nat, fate: nat -> Fate, codec: S)
      ensures this.encode == encode && this.codec == codec && socket == buffer == []
    {
      this.encode, this.boundary, this.fate, this.codec := encode, boundary, fate, codec;
      buffer, socket, flushes := [], [], 0;
    }

    /** Everything that was ever encoded, sent or not. */
    function Stream(): seq<Byte>
      reads this
    {
      socket + buffer
    }

    method Flush() returns (ok: bool)
      modifies this`buffer, this`socket, this`flushes
      ensures Stream() == old(Stream()) && old(socket) <= socket
      ensures ok <==> fate(old(flushes)).Taken?
      ensures ok ==> buffer == []
    {
      var n := match fate(flushes)
        case Taken => |buffer|
        case Cut(after) => if after < |buffer| then after else |buffer|;
      ok := fate(flushes).Taken?;
      flushes := flushes + 1;
      assert buffer == buffer[..n] + buffer[n..];
      socket, buffer := socket + buffer[..n], buffer[n..];
    }

    /** The buffer is emptied before a message is accepted, once it has reached the boundary. */
    method PollReady() returns (ok: bool)
      modifies this`buffer, this`socket, this`flushes
      ensures Stream() == old(Stream()) && old(socket) <= socket
      ensures ok ==> buffer == [] || |buffer| < boundary
    {
      ok := true;
      if |buffer| >= boundary {
        ok := Flush();
      }
    }

    method StartSend(m: M) returns (ok: bool)
      modifies this`codec, this`buffer
      ensures var e := encode(old(codec), m);
        ok == e.ok && codec == e.codec && buffer == old(buffer) + e.bytes && Stream() == old(Stream()) + e.bytes
    {
      var e := encode(codec, m);
      assert socket + (buffer + e.bytes) == socket + buffer + e.bytes;
      codec, buffer := e.codec, buffer + e.bytes;
      ok := e.ok;
    }
  }

  // ---- one batch --------------------------------------------------------------------------

  function BytesOf<S, M>(enc: (S, M) -> Encoding<S>, s: S, msgs: seq<M>): nat {
    |Encoded(enc, s, msgs)|
  }

  /** All of `msgs` were encoded, from codec state `s` and after the bytes of `start`. */
  ghost predicate Sent<S, M>(enc: (S, M) -> Encoding<S>, s: S, msgs: seq<M>, start: seq<Byte>, sent: seq<Byte>,
                             codec: S) {
    && sent == start + Encoded(enc, s, msgs)
    && codec == CodecAfter(enc, s, msgs)
    && Encodes(enc, s, msgs)
  }

  /** How far a failing batch can have come: the first `k` messages were encoded, all but
      perhaps the last of them successfully. */
  ghost predicate CutShort<S, M>(enc: (S, M) -> Encoding<S>, s: S, msgs: seq<M>, k: nat, start: seq<Byte>,
                                 sent: seq<Byte>) {
    && k <= |msgs|
    && sent == start + Encoded(enc, s, msgs[..k])
    && (k > 0 ==> Encodes(enc, s, msgs[..k - 1]))
  }

  lemma SentMore<S, M>(enc: (S, M) -> Encoding<S>, s: S, msgs: seq<M>, i: nat, j: nat,
                       start: seq<Byte>, sent: seq<Byte>, codec: S, sent': seq<Byte>, codec': S)
    requires i <= j <= |msgs|
    requires Sent(enc, s, msgs[..i], start, sent, codec) && Sent(enc, codec, msgs[i..j], sent, sent', codec')
    ensures Sent(enc, s, msgs[..j], start, sent', codec')
    ensures BytesOf(enc, s, msgs[..j]) == BytesOf(enc, s, msgs[..i]) + BytesOf(enc, codec, msgs[i..j])
  {
    assert msgs[..i] + msgs[i..j] == msgs[..j];
    EncodedConcat(enc, s, msgs[..i], msgs[i..j]);
  }

  lemma SentOne<S, M>(enc: (S, M) -> Encoding<S>, s: S, msgs: seq<M>, i: nat, start: seq<Byte>, sent: seq<Byte>,
                      codec: S)
    requires i < |msgs| && Sent(enc, s, msgs[..i], start, sent, codec)
    ensures var e := enc(codec, msgs[i]);
      && (e.ok ==> Sent(enc, s, msgs[..i + 1], start, sent + e.bytes, e.codec))
      && CutShort(enc, s, msgs, i + 1, start, sent + e.bytes)
      && BytesOf(enc, s, msgs[..i + 1]) == BytesOf(enc, s, msgs[..i]) + |e.bytes|
  {
    assert msgs[..i] + [msgs[i]] == msgs[..i + 1];
    EncodedSnoc(enc, s, msgs[..i], msgs[i]);
  }

  lemma SentSoFar<S, M>(enc: (S, M) -> Encoding<S>, s: S, msgs: seq<M>, i: nat, start: seq<Byte>, sent: seq<Byte>,
                        codec: S)
    requires i <= |msgs| && Sent(enc, s, msgs[..i], start, sent, codec)
    ensures CutShort(enc, s, msgs, i, start, sent)
  {
    if i > 0 {
      EncodedSnoc(enc, s, msgs[..i - 1], msgs[i - 1]);
      assert msgs[..i - 1] + [msgs[i - 1]] == msgs[..i];
    }
  }

  datatype Written = Written(msgs: nat, bytes: nat) | WriteFailed

  /** `write_batch`. On success the socket has received all that was buffered before and the
      encodings of the whole batch, and the byte count is exact however often the buffer flushed
      itself on the way; on failure it has received a prefix of that. */
  method WriteBatch<S(!new), M(!new)>(msgs: seq<M>, w: FramedWrite<S, M>) returns (r: Written, ghost k: nat)
    modifies w`codec, w`buffer, w`socket, w`flushes
    ensures old(w.socket) <= w.socket
    ensures r.Written? ==>
      && Sent(w.encode, old(w.codec), msgs, old(w.Stream()), w.socket, w.codec)
      && w.buffer == []
      && r.msgs == |msgs|
      && r.bytes == BytesOf(w.encode, old(w.codec), msgs)
    ensures r.WriteFailed? ==> CutShort(w.encode, old(w.codec), msgs, k, old(w.Stream()), w.Stream())
  {
    ghost var s := w.codec;
    var bytes := 0;
    var i := 0;
    while i < |msgs|
      invariant 0 <= i <= |msgs|
      invariant old(w.socket) <= w.socket
      invariant Sent(w.encode, s, msgs[..i], old(w.Stream()), w.Stream(), w.codec)
      invariant bytes == BytesOf(w.encode, s, msgs[..i])
    {
      SentOne(w.encode, s, msgs, i, old(w.Stream()), w.Stream(), w.codec);
      SentSoFar(w.encode, s, msgs, i, old(w.Stream()), w.Stream(), w.codec);
      var ready := w.PollReady();
      if !ready {
        return WriteFailed, i;
      }
      var prev := |w.buffer|;
      var sent := w.StartSend(msgs[i]);
      if !sent {
        return WriteFailed, i + 1;
      }
      bytes := bytes + if |w.buffer| < prev then 0 else |w.buffer| - prev;
      i := i + 1;
    }
    assert msgs[..i] == msgs;
    SentSoFar(w.encode, s, msgs, i, old(w.Stream()), w.Stream(), w.codec);
    var flushed := w.Flush();
    if !flushed {
      return WriteFailed, i;
    }
    return Written(|msgs|, bytes), i;
  }

  // ---- the writer task --------------------------------------------------------------------

  /** A queued message, and whether its sender awaits confirmation. */
  datatype Queued<M> = Queued(msg: M, confirm: bool)

  /** What the sender learns: nothing asked, written, failed, or that the writer went away. */
  datatype Verdict = Unasked | Confirmed | Refused | Abandoned

  datatype Stats = Stats(msgs: nat, bytes: nat)
  {
    function Plus(m: nat, b: nat): Stats { Stats(msgs + m, bytes + b) }
  }

  function Msgs<M>(queue: seq<Queued<M>>): seq<M> {
    seq(|queue|, i requires 0 <= i < |queue| => queue[i].msg)
  }

  function Answers<M>(batch: seq<Queued<M>>, v: Verdict): seq<Verdict> {
    seq(|batch|, i requires 0 <= i < |batch| => if batch[i].confirm then v else Unasked)
  }

  /** `recv_many` takes at least one message, at most `depth`, and no more than are there. */
  function BatchSize(available: nat, left: nat, depth: nat): nat
    requires left > 0 && depth > 0
    ensures 0 < BatchSize(available, left, depth) <= left
  {
    var n := if available == 0 then 1 else available;
    var capped := if n < depth then n else depth;
    if capped < left then capped else left
  }

  /** The first `n` messages are confirmed, those up to `m` refused, and the rest abandoned. */
  ghost predicate Settled<M>(queue: seq<Queued<M>>, verdicts: seq<Verdict>, n: nat, m: nat) {
    && n <= m <= |queue|
    && verdicts == Answers(queue[..n], Confirmed) + Answers(queue[n..m], Refused) + Answers(queue[m..], Abandoned)
  }

  lemma MsgsSlice<M>(queue: seq<Queued<M>>, i: nat, j: nat)
    requires i <= j <= |queue|
    ensures Msgs(queue[i..j]) == Msgs(queue)[i..j]
  {
  }

  lemma AnswersMore<M>(queue: seq<Queued<M>>, i: nat, j: nat)
    requires i <= j <= |queue|
    ensures Answers(queue[..i], Confirmed) + Answers(queue[i..j], Confirmed) == Answers(queue[..j], Confirmed)
  {
  }

  /** The first `i` messages are written, confirmed and counted, and nothing else is. */
  ghost predicate Confirming<S, M>(enc: (S, M) -> Encoding<S>, s: S, queue: seq<Queued<M>>, i: nat,
                                   verdicts: seq<Verdict>,
                                   start: seq<Byte>, sent: seq<Byte>, codec: S, from: Stats, stats: Stats) {
    && i <= |queue|
    && verdicts == Answers(queue[..i], Confirmed)
    && Sent(enc, s, Msgs(queue)[..i], start, sent, codec)
    && stats == from.Plus(i, BytesOf(enc, s, Msgs(queue)[..i]))
  }

  lemma ConfirmingMore<S, M>(enc: (S, M) -> Encoding<S>, s: S, queue: seq<Queued<M>>, i: nat, verdicts: seq<Verdict>,
                             start: seq<Byte>, sent: seq<Byte>, codec: S, from: Stats, stats: Stats,
                             size: nat, sent': seq<Byte>, codec': S)
    requires Confirming(enc, s, queue, i, verdicts, start, sent, codec, from, stats) && i + size <= |queue|
    requires Sent(enc, codec, Msgs(queue[i..i + size]), sent, sent', codec')
    ensures Confirming(enc, s, queue, i + size, verdicts + Answers(queue[i..i + size], Confirmed), start, sent', codec',
                       from, stats.Plus(size, BytesOf(enc, codec, Msgs(queue[i..i + size]))))
  {
    MsgsSlice(queue, i, i + size);
    SentMore(enc, s, Msgs(queue), i, i + size, start, sent, codec, sent', codec');
    AnswersMore(queue, i, i + size);
  }

  /** How a writer task ends. What reached the socket is a prefix of the messages encoded one by
      one; the first `n`, all of them unless a write failed, are there in full, are the confirmed
      ones, and are what the statistics count. */
  ghost predicate Outcome<S, M>(enc: (S, M) -> Encoding<S>, s: S, queue: seq<Queued<M>>, n: nat, m: nat,
                                verdicts: seq<Verdict>, start: seq<Byte>, socket: seq<Byte>, stream: seq<Byte>,
                                from: Stats, stats: Stats) {
    && Settled(queue, verdicts, n, m)
    && Encodes(enc, s, Msgs(queue)[..n])
    && start + Encoded(enc, s, Msgs(queue)[..n]) <= socket
    && stream <= start + Encoded(enc, s, Msgs(queue)[..m])
    && (if n < |queue| then n < m else n == m && stream == socket)
    && stats == from.Plus(n, BytesOf(enc, s, Msgs(queue)[..n]))
  }

  lemma AllConfirmed<S, M>(enc: (S, M) -> Encoding<S>, s: S, queue: seq<Queued<M>>, verdicts: seq<Verdict>,
                           start: seq<Byte>, sent: seq<Byte>, codec: S, from: Stats, stats: Stats)
    requires Confirming(enc, s, queue, |queue|, verdicts, start, sent, codec, from, stats)
    ensures Outcome(enc, s, queue, |queue|, |queue|, verdicts, start, sent, sent, from, stats)
  {
    var n := |queue|;
    assert Answers(queue[n..n], Refused) + Answers(queue[n..], Abandoned) == [];
  }

  lemma BatchFailed<S, M>(enc: (S, M) -> Encoding<S>, s: S, queue: seq<Queued<M>>, i: nat, verdicts: seq<Verdict>,
                          start: seq<Byte>, sent: seq<Byte>, codec: S, from: Stats, stats: Stats,
                          size: nat, k: nat, socket: seq<Byte>, stream: seq<Byte>)
    requires Confirming(enc, s, queue, i, verdicts, start, sent, codec, from, stats) && 0 < size && i + size <= |queue|
    requires CutShort(enc, codec, Msgs(queue[i..i + size]), k, sent, stream) && sent <= socket
    ensures Outcome(enc, s, queue, i, i + size,
                    verdicts + Answers(queue[i..i + size], Refused) + Answers(queue[i + size..], Abandoned),
                    start, socket, stream, from, stats)
  {
    MsgsSlice(queue, i, i + size);
    CutIsPrefix(enc, s, Msgs(queue), i, i + size, k, start, sent, codec, stream);
  }

  /** Two statistics have grown by the same. */
  predicate Grown(a: Stats, a': Stats, b: Stats, b': Stats) {
    a'.msgs - a.msgs == b'.msgs - b.msgs && a'.bytes - a.bytes == b'.bytes - b.bytes
  }

  /** The writer task, from its first message until the queue closes or a write fails, whatever the
      batch sizes, the boundary and the fate of each flush. The node's statistics grow by as much as
      the connection's. */
  method WriterLoop<S(!new), M(!new)>(queue: seq<Queued<M>>, available: nat -> nat, depth: nat, w: FramedWrite<S, M>,
                                      connStats: Stats, nodeStats: Stats)
    returns (verdicts: seq<Verdict>, conn: Stats, node: Stats, ghost n: nat, ghost m: nat)
    requires depth > 0 && w.buffer == []
    modifies w`codec, w`buffer, w`socket, w`flushes
    ensures Outcome(w.encode, old(w.codec), queue, n, m, verdicts, old(w.socket), w.socket, w.Stream(), connStats, conn)
    ensures Grown(connStats, conn, nodeStats, node)
  {
    ghost var s, start := w.codec, w.socket;
    verdicts, conn, node := [], connStats, nodeStats;
    var i, round := 0, 0;
    while i < |queue|
      invariant w.buffer == []
      invariant Confirming(w.encode, s, queue, i, verdicts, start, w.socket, w.codec, connStats, conn)
      invariant Grown(connStats, conn, nodeStats, node)
    {
      var size := BatchSize(available(round), |queue| - i, depth);
      var batch := queue[i..i + size];
      ghost var socket, codec := w.socket, w.codec;
      var r, k := WriteBatch(Msgs(batch), w);
      match r {
        case Written(count, bytes) =>
          ConfirmingMore(w.encode, s, queue, i, verdicts, start, socket, codec, connStats, conn, size, w.socket,
              w.codec);
          verdicts := verdicts + Answers(batch, Confirmed);
          conn, node := conn.Plus(count, bytes), node.Plus(count, bytes);
          i, round := i + size, round + 1;
        case WriteFailed =>
          BatchFailed(w.encode, s, queue, i, verdicts, start, socket, codec, connStats, conn, size, k, w.socket,
              w.Stream());
          verdicts := verdicts + Answers(batch, Refused) + Answers(queue[i + size..], Abandoned);
          return verdicts, conn, node, i, i + size;
      }
    }
    AllConfirmed(w.encode, s, queue, verdicts, start, w.socket, w.codec, connStats, conn);
    return verdicts, conn, node, i, i;
  }

  /** A batch that failed after `i` messages has produced no byte that is not the next one due. */
  lemma CutIsPrefix<S, M>(enc: (S, M) -> Encoding<S>, s: S, msgs: seq<M>, i: nat, j: nat, k: nat,
                          start: seq<Byte>, sent: seq<Byte>, codec: S, sent': seq<Byte>)
    requires i <= j <= |msgs|
    requires Sent(enc, s, msgs[..i], start, sent, codec) && CutShort(enc, codec, msgs[i..j], k, sent, sent')
    ensures sent' <= start + Encoded(enc, s, msgs[..j])
  {
    assert msgs[..i] + msgs[i..j] == msgs[..j];
    EncodedConcat(enc, s, msgs[..i], msgs[i..j]);
    EncodedPrefix(enc, codec, msgs[i..j], k);
  }

  lemma EncodedPrefix<S, M>(enc: (S, M) -> Encoding<S>, s: S, msgs: seq<M>, k: nat)
    requires k <= |msgs|
    ensures Encoded(enc, s, msgs[..k]) <= Encoded(enc, s, msgs)
  {
    EncodedConcat(enc, s, msgs[..k], msgs[k..]);
    assert msgs[..k] + msgs[k..] == msgs;
  }
}
