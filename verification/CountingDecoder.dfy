/**
 Receive accounting: a decoder wrapper that charges to each completed message the bytes consumed
 since the one before, on the connection's counters and then on the node's, while any number of
 connections read at once.
 */
module CountingDecoder {

  type Byte = n: nat | n < 256

  // ---- one call ---------------------------------------------------------------------------

  datatype Outcome = Produced | NeedsMore | Failed

  /** A connection's accounting: bytes not yet charged, messages and bytes registered. */
  datatype Counter = Counter(acc: nat, msgs: nat, bytes: nat)

  function Consumed(initial: nat, final: nat): nat {
    if final < initial then initial - final else 0
  }

  /** What `account` does with a call that took the buffer from `initial` to `final` bytes. */
  function Accounted(c: Counter, initial: nat, final: nat, produced: bool): Counter {
    var size := Consumed(initial, final) + c.acc;
    if size == 0 then c
    else if produced then Counter(0, c.msgs + 1, c.bytes + size)
    else c.(acc := size)
  }

  class Stats {
    var msgs: nat
    var bytes: nat

    constructor ()
      ensures msgs == bytes == 0
    {
      msgs, bytes := 0, 0;
    }

    method RegisterReceived(size: nat)
      modifies this
      ensures msgs == old(msgs) + 1 && bytes == old(bytes) + size
    {
      msgs := msgs + 1;
      bytes := bytes + size;
    }
  }

  datatype Decoded<S> = Decoded(codec: S, rest: seq<Byte>, outcome: Outcome)

  class CountingCodec<S> {
    const decoder: (S, seq<Byte>) -> Decoded<S>
    const decoderAtEof: (S, seq<Byte>) -> Decoded<S>
    const stats: Stats
    const nodeStats: Stats
    var codec: S
    var acc: nat

    constructor (decoder: (S, seq<Byte>) -> Decoded<S>, decoderAtEof: (S, seq<Byte>) -> Decoded<S>, codec: S,
                 stats: Stats, nodeStats: Stats)
      ensures this.decoder == decoder && this.decoderAtEof == decoderAtEof && this.codec == codec
      ensures this.stats == stats && this.nodeStats == nodeStats && acc == 0
    {
      this.decoder, this.decoderAtEof, this.codec := decoder, decoderAtEof, codec;
      this.stats, this.nodeStats, acc := stats, nodeStats, 0;
    }

    function View(): Counter
      reads this, stats
    {
      Counter(acc, stats.msgs, stats.bytes)
    }

    method Account(initial: nat, final: nat, produced: bool)
      requires stats != nodeStats
      modifies this`acc, stats, nodeStats
      ensures View() == Accounted(old(View()), initial, final, produced)
      ensures nodeStats.msgs - old(nodeStats.msgs) == stats.msgs - old(stats.msgs)
      ensures nodeStats.bytes - old(nodeStats.bytes) == stats.bytes - old(stats.bytes)
    {
      var consumed := if final < initial then initial - final else 0;
      var size := consumed + acc;
      if size != 0 {
        if produced {
          acc := 0;
          stats.RegisterReceived(size);
          nodeStats.RegisterReceived(size);
        } else {
          acc := size;
        }
      }
    }

    /** `decode`: the inner decoder's answer, accounted whatever it is. */
    method Decode(src: seq<Byte>) returns (rest: seq<Byte>, outcome: Outcome)
      requires stats != nodeStats
      modifies this, stats, nodeStats
      ensures Decoded(codec, rest, outcome) == decoder(old(codec), src)
      ensures View() == Accounted(old(View()), |src|, |rest|, outcome.Produced?)
      ensures nodeStats.msgs - old(nodeStats.msgs) == stats.msgs - old(stats.msgs)
      ensures nodeStats.bytes - old(nodeStats.bytes) == stats.bytes - old(stats.bytes)
    {
      var d := decoder(codec, src);
      codec, rest, outcome := d.codec, d.rest, d.outcome;
      Account(|src|, |rest|, outcome.Produced?);
    }

    method DecodeEof(src: seq<Byte>) returns (rest: seq<Byte>, outcome: Outcome)
      requires stats != nodeStats
      modifies this, stats, nodeStats
      ensures Decoded(codec, rest, outcome) == decoderAtEof(old(codec), src)
      ensures View() == Accounted(old(View()), |src|, |rest|, outcome.Produced?)
      ensures nodeStats.msgs - old(nodeStats.msgs) == stats.msgs - old(stats.msgs)
      ensures nodeStats.bytes - old(nodeStats.bytes) == stats.bytes - old(stats.bytes)
    {
      var d := decoderAtEof(codec, src);
      codec, rest, outcome := d.codec, d.rest, d.outcome;
      Account(|src|, |rest|, outcome.Produced?);
    }
  }

  // ---- any number of connections ----------------------------------------------------------

  type ConnIndex = nat

  /** A connection being read: its buffer's length and its counter. `owed` is the size of a message
      registered with the connection and not with the node yet, or zero. The last four fields are
      history: bytes that arrived, bytes an inner decoder added to its own input, productions, and
      those among them that no byte was spent on. */
  datatype Reader = Reader(buffered: nat, counter: Counter, owed: nat,
                           arrived: nat, grown: nat, productions: nat, empties: nat)

  datatype State = State(readers: seq<Reader>, nodeMsgs: nat, nodeBytes: nat)

  datatype Label =
    | Open
    | Arrive(c: ConnIndex, n: nat)
    | Call(c: ConnIndex, left: nat, outcome: Outcome)
    | RegisterWithNode(c: ConnIndex)

  const FRESH: State := State([], 0, 0)

  function AfterCall(r: Reader, left: nat, outcome: Outcome): Reader {
    var counter := Accounted(r.counter, r.buffered, left, outcome.Produced?);
    var empty := outcome.Produced? && counter.msgs == r.counter.msgs;
    r.(buffered := left,
       counter := counter,
       owed := counter.bytes - r.counter.bytes,
       grown := r.grown + Consumed(left, r.buffered),
       productions := r.productions + if outcome.Produced? then 1 else 0,
       empties := r.empties + if empty then 1 else 0)
  }

  function Next(st: State, l: Label): State {
    match l
    case Open => st.(readers := st.readers + [Reader(0, Counter(0, 0, 0), 0, 0, 0, 0, 0)])
    case Arrive(c, n) =>
      if c < |st.readers| then
        var r := st.readers[c];
        st.(readers := st.readers[c := r.(buffered := r.buffered + n, arrived := r.arrived + n)])
      else st
    case Call(c, left, outcome) =>
      if c < |st.readers| && st.readers[c].owed == 0
      then st.(readers := st.readers[c := AfterCall(st.readers[c], left, outcome)])
      else st
    case RegisterWithNode(c) =>
      if c < |st.readers| && st.readers[c].owed > 0
      then State(st.readers[c := st.readers[c].(owed := 0)], st.nodeMsgs + 1, st.nodeBytes + st.readers[c].owed)
      else st
  }

  function Exec(st: State, ls: seq<Label>): State
    decreases |ls|
  {
    if ls == [] then st else Next(Exec(st, ls[..|ls| - 1]), ls[|ls| - 1])
  }

  /** Registered with the connections, and of that, not yet with the node. */
  function SumMsgs(rs: seq<Reader>): nat {
    if rs == [] then 0 else rs[0].counter.msgs + SumMsgs(rs[1..])
  }

  function SumBytes(rs: seq<Reader>): nat {
    if rs == [] then 0 else rs[0].counter.bytes + SumBytes(rs[1..])
  }

  function OwedMsgs(rs: seq<Reader>): nat {
    if rs == [] then 0 else (if rs[0].owed > 0 then 1 else 0) + OwedMsgs(rs[1..])
  }

  function OwedBytes(rs: seq<Reader>): nat {
    if rs == [] then 0 else rs[0].owed + OwedBytes(rs[1..])
  }

  /** Each byte that arrived or was added is buffered, pending or registered, and each production
      is registered unless it was empty. */
  predicate Balanced(r: Reader) {
    && r.arrived + r.grown == r.buffered + r.counter.acc + r.counter.bytes
    && r.productions == r.counter.msgs + r.empties
  }

  predicate Inv(st: State) {
    && (forall c :: 0 <= c < |st.readers| ==> Balanced(st.readers[c]))
    && st.nodeMsgs + OwedMsgs(st.readers) == SumMsgs(st.readers)
    && st.nodeBytes + OwedBytes(st.readers) == SumBytes(st.readers)
  }

  lemma {:induction false} SumsAfterUpdate(rs: seq<Reader>, c: nat, r: Reader)
    requires c < |rs|
    ensures SumMsgs(rs[c := r]) == SumMsgs(rs) - rs[c].counter.msgs + r.counter.msgs
    ensures SumBytes(rs[c := r]) == SumBytes(rs) - rs[c].counter.bytes + r.counter.bytes
    ensures OwedBytes(rs[c := r]) == OwedBytes(rs) - rs[c].owed + r.owed
    ensures OwedMsgs(rs[c := r]) == OwedMsgs(rs) - (if rs[c].owed > 0 then 1 else 0) + if r.owed > 0 then 1 else 0
  {
    if c > 0 {
      assert rs[c := r][1..] == rs[1..][c - 1 := r];
      SumsAfterUpdate(rs[1..], c - 1, r);
    }
  }

  lemma {:induction false} SumsAfterOpen(rs: seq<Reader>, r: Reader)
    requires r.counter == Counter(0, 0, 0) && r.owed == 0
    ensures SumMsgs(rs + [r]) == SumMsgs(rs) && SumBytes(rs + [r]) == SumBytes(rs)
    ensures OwedMsgs(rs + [r]) == OwedMsgs(rs) && OwedBytes(rs + [r]) == OwedBytes(rs)
  {
    if rs != [] {
      assert (rs + [r])[1..] == rs[1..] + [r];
      SumsAfterOpen(rs[1..], r);
    }
  }

  /** A call registers a message exactly when it produces one that some byte was spent on, and
      charges it all bytes consumed since the last production. */
  lemma CallBalances(r: Reader, left: nat, outcome: Outcome)
    requires Balanced(r)
    ensures var r' := AfterCall(r, left, outcome);
      && Balanced(r')
      && r'.counter.msgs == r.counter.msgs + (if r'.owed > 0 then 1 else 0)
      && r'.counter.bytes == r.counter.bytes + r'.owed
  {
  }

  lemma StepInv(st: State, l: Label)
    requires Inv(st)
    ensures Inv(Next(st, l))
  {
    match l
    case Open => SumsAfterOpen(st.readers, Reader(0, Counter(0, 0, 0), 0, 0, 0, 0, 0));
    case Arrive(c, n) =>
      if c < |st.readers| {
        SumsAfterUpdate(st.readers, c, Next(st, l).readers[c]);
      }
    case Call(c, left, outcome) => CallInv(st, c, left, outcome);
    case RegisterWithNode(c) => RegisterInv(st, c);
  }

  lemma CallInv(st: State, c: ConnIndex, left: nat, outcome: Outcome)
    requires Inv(st)
    ensures Inv(Next(st, Call(c, left, outcome)))
  {
    if c < |st.readers| && st.readers[c].owed == 0 {
      CallBalances(st.readers[c], left, outcome);
      SumsAfterUpdate(st.readers, c, AfterCall(st.readers[c], left, outcome));
    }
  }

  lemma RegisterInv(st: State, c: ConnIndex)
    requires Inv(st)
    ensures Inv(Next(st, RegisterWithNode(c)))
  {
    if c < |st.readers| {
      SumsAfterUpdate(st.readers, c, st.readers[c].(owed := 0));
    }
  }

  lemma {:induction false} RunInv(ls: seq<Label>)
    ensures Inv(Exec(FRESH, ls))
    decreases |ls|
  {
    if ls != [] {
      RunInv(ls[..|ls| - 1]);
      StepInv(Exec(FRESH, ls[..|ls| - 1]), ls[|ls| - 1]);
    }
  }

  /** Step `i` of the run is a call by connection `c` that leaves its buffer longer. */
  predicate Grows(ls: seq<Label>, c: ConnIndex, i: nat)
    requires i < |ls|
  {
    var st := Exec(FRESH, ls[..i]);
    && ls[i].Call? && ls[i].c == c < |st.readers| && st.readers[c].owed == 0
    && ls[i].left > st.readers[c].buffered
  }

  /** Step `i` of the run produces a message for `c` with no byte consumed since the last one. */
  predicate ProducesFromNothing(ls: seq<Label>, c: ConnIndex, i: nat)
    requires i < |ls|
  {
    var st := Exec(FRESH, ls[..i]);
    && ls[i].Call? && ls[i].c == c < |st.readers| && st.readers[c].owed == 0
    && ls[i].outcome.Produced?
    && ls[i].left >= st.readers[c].buffered && st.readers[c].counter.acc == 0
  }

  lemma {:induction false} HistoryMeans(ls: seq<Label>, c: ConnIndex)
    ensures var st := Exec(FRESH, ls);
      if c < |st.readers| then
        && (st.readers[c].grown == 0 <==> forall i :: 0 <= i < |ls| ==> !Grows(ls, c, i))
        && (st.readers[c].empties == 0 <==> forall i :: 0 <= i < |ls| ==> !ProducesFromNothing(ls, c, i))
      else forall i :: 0 <= i < |ls| ==> !Grows(ls, c, i) && !ProducesFromNothing(ls, c, i)
    decreases |ls|
  {
    if ls != [] {
      var n := |ls| - 1;
      HistoryMeans(ls[..n], c);
      forall i | 0 <= i < n
        ensures Grows(ls, c, i) == Grows(ls[..n], c, i)
        ensures ProducesFromNothing(ls, c, i) == ProducesFromNothing(ls[..n], c, i)
      {
        assert ls[..n][..i] == ls[..i];
      }
      LastStep(ls, c);
    }
  }

  /** The last step changes a connection's history exactly if it is such a step. */
  lemma {:induction false} LastStep(ls: seq<Label>, c: ConnIndex)
    requires ls != []
    ensures var n := |ls| - 1; var before, after := Exec(FRESH, ls[..n]).readers, Exec(FRESH, ls).readers;
      if c < |before| then
        && c < |after|
        && (after[c].grown == 0 <==> before[c].grown == 0 && !Grows(ls, c, n))
        && (after[c].empties == 0 <==> before[c].empties == 0 && !ProducesFromNothing(ls, c, n))
      else
        && !Grows(ls, c, n) && !ProducesFromNothing(ls, c, n)
        && (c < |after| ==> after[c].grown == after[c].empties == 0)
  {
  }

  /** In every run, the bytes a connection registered, those pending and those still buffered are
      all that arrived, if and only if no call grew its input; and its message count is its
      productions, if and only if each of them was preceded by a byte. */
  lemma {:induction false} ReceivedIsConserved(ls: seq<Label>, c: ConnIndex)
    requires c < |Exec(FRESH, ls).readers|
    ensures var r := Exec(FRESH, ls).readers[c];
      && (r.counter.bytes + r.counter.acc + r.buffered == r.arrived
          <==> forall i :: 0 <= i < |ls| ==> !Grows(ls, c, i))
      && (r.counter.msgs == r.productions
          <==> forall i :: 0 <= i < |ls| ==> !ProducesFromNothing(ls, c, i))
  {
    RunInv(ls);
    HistoryMeans(ls, c);
    assert Balanced(Exec(FRESH, ls).readers[c]);
  }

  /** No reader is between its two registrations. */
  predicate Quiet(rs: seq<Reader>) {
    forall c :: 0 <= c < |rs| ==> rs[c].owed == 0
  }

  lemma {:induction false} NothingOwed(rs: seq<Reader>)
    requires Quiet(rs)
    ensures OwedMsgs(rs) == OwedBytes(rs) == 0
  {
    if rs != [] {
      NothingOwed(rs[1..]);
    }
  }

  /** Whenever no reader is between its two registrations, the node's totals are the sums over its
      connections. */
  lemma {:induction false} NodeTotalsAreSums(ls: seq<Label>)
    requires Quiet(Exec(FRESH, ls).readers)
    ensures var st := Exec(FRESH, ls); st.nodeMsgs == SumMsgs(st.readers) && st.nodeBytes == SumBytes(st.readers)
  {
    RunInv(ls);
    NothingOwed(Exec(FRESH, ls).readers);
  }

  /** A connection whose inner decoder produces without consuming: a production is not counted. */
  lemma EmptyProductionIsNotCounted()
    ensures var r := Exec(FRESH, [Open, Call(0, 0, Produced)]).readers[0];
      r.productions == 1 && r.counter.msgs == 0
  {
    var first := [Open];
    assert [Open, Call(0, 0, Produced)][..1] == first;
    assert first[..0] == [];
    assert Exec(FRESH, first) == Next(FRESH, Open);
  }
}
