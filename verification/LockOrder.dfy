/**
 The lock discipline over `limits`, `active` and `senders`: acquisition and release as steps.

 Every operation of the library that takes one of the three locks is a short program of
 acquisitions and releases. Any number of threads run them, interleaved. A thread that reaches an
 acquisition first takes a ticket, so that "waits behind" is a relation of the model too: the
 results below do not depend on who the lock lets pass first.
 */
module LockOrder {
  import opened Util

  type ThreadId = nat

  datatype Lock = SendersLock | LimitsLock | ActiveLock

  datatype Instr = Acquire(lock: Lock, exclusive: bool) | Release(lock: Lock)

  datatype Operation =
    | CheckAndReserve
    | AddConnection
    | DropGuard
    | ClaimDisconnect
    | DropFinalizer
    | ReadActive
    | AttachTask
    | ReadLimits
    | PublishSender
    | CleanUpSender
    | QueueMessage

  function Program(op: Operation): seq<Instr> {
    match op
    case CheckAndReserve =>
      [Acquire(LimitsLock, true), Acquire(ActiveLock, false), Release(ActiveLock), Release(LimitsLock)]
    case AddConnection =>
      [Acquire(ActiveLock, true), Release(ActiveLock), Acquire(LimitsLock, true), Release(LimitsLock)]
    case DropGuard => [Acquire(LimitsLock, true), Release(LimitsLock)]
    case ClaimDisconnect => [Acquire(ActiveLock, false), Release(ActiveLock)]
    case DropFinalizer =>
      [Acquire(SendersLock, true), Release(SendersLock),
       Acquire(LimitsLock, true), Acquire(ActiveLock, true), Release(ActiveLock), Release(LimitsLock)]
    case ReadActive => [Acquire(ActiveLock, false), Release(ActiveLock)]
    case AttachTask => [Acquire(ActiveLock, true), Release(ActiveLock)]
    case ReadLimits => [Acquire(LimitsLock, true), Release(LimitsLock)]
    case PublishSender => [Acquire(SendersLock, true), Release(SendersLock)]
    case CleanUpSender => [Acquire(SendersLock, true), Release(SendersLock)]
    case QueueMessage => [Acquire(SendersLock, false), Release(SendersLock)]
  }

  /** What a thread holds (and whether exclusively), what is left of its program, and its ticket
      while it waits for a lock. */
  datatype Thread = Thread(held: map<Lock, bool>, rest: seq<Instr>, ticket: Option<nat>)
  {
    predicate Waits() { rest != [] && rest[0].Acquire? && ticket.Some? }
  }

  datatype State = State(threads: map<ThreadId, Thread>, nextTicket: nat)

  datatype Label =
    | Start(t: ThreadId, op: Operation)
    | Request(t: ThreadId)
    | Grant(t: ThreadId)
    | Let(t: ThreadId)
    | End(t: ThreadId)

  const IDLE: State := State(map[], 0)

  /** No other thread holds the lock that `t` waits for in a way that conflicts. */
  predicate Compatible(st: State, t: ThreadId)
    requires t in st.threads && st.threads[t].Waits()
  {
    var want := st.threads[t].rest[0];
    forall u :: u in st.threads && u != t && want.lock in st.threads[u].held ==>
        !want.exclusive && !st.threads[u].held[want.lock]
  }

  predicate Enabled(st: State, l: Label) {
    match l
    case Start(t, _) => t !in st.threads
    case Request(t) =>
      t in st.threads && st.threads[t].rest != [] && st.threads[t].rest[0].Acquire? && st.threads[t].ticket.None?
    case Grant(t) => t in st.threads && st.threads[t].Waits() && Compatible(st, t)
    case Let(t) => t in st.threads && st.threads[t].rest != [] && st.threads[t].rest[0].Release?
    case End(t) => t in st.threads && st.threads[t].rest == []
  }

  function Next(st: State, l: Label): State {
    if !Enabled(st, l) then st
    else match l
      case Start(t, op) => st.(threads := st.threads[t := Thread(map[], Program(op), None)])
      case Request(t) =>
        State(st.threads[t := st.threads[t].(ticket := Some(st.nextTicket))], st.nextTicket + 1)
      case Grant(t) =>
        var th := st.threads[t];
        st.(threads := st.threads[t := Thread(th.held[th.rest[0].lock := th.rest[0].exclusive], th.rest[1..], None)])
      case Let(t) =>
        var th := st.threads[t];
        st.(threads := st.threads[t := Thread(th.held - {th.rest[0].lock}, th.rest[1..], None)])
      case End(t) => st.(threads := st.threads - {t})
  }

  function Exec(st: State, ls: seq<Label>): State
    decreases |ls|
  {
    if ls == [] then st else Next(Exec(st, ls[..|ls| - 1]), ls[|ls| - 1])
  }

  // ---- the discipline --------------------------------------------------------------------

  function Rank(lock: Lock): nat {
    match lock
    case SendersLock => 0
    case LimitsLock => 1
    case ActiveLock => 2
  }

  /** From `held` on, `rest` only acquires locks that rank above everything held, and releases
      what it acquired. */
  predicate Disciplined(held: map<Lock, bool>, rest: seq<Instr>)
    decreases |rest|
  {
    if rest == [] then held == map[]
    else match rest[0]
      case Acquire(lock, exclusive) =>
        (forall h :: h in held ==> Rank(h) < Rank(lock)) && Disciplined(held[lock := exclusive], rest[1..])
      case Release(lock) => lock in held && Disciplined(held - {lock}, rest[1..])
  }

  /** Taking one lock and giving it back, before the rest. */
  lemma Bracket(lock: Lock, exclusive: bool, rest: seq<Instr>)
    requires Disciplined(map[], rest)
    ensures Disciplined(map[], [Acquire(lock, exclusive), Release(lock)] + rest)
  {
    var prog := [Acquire(lock, exclusive), Release(lock)] + rest;
    var held: map<Lock, bool> := map[lock := exclusive];
    assert prog[1..][1..] == rest;
    assert held - {lock} == map[];
    assert Disciplined(held, prog[1..]);
  }

  /** Taking `active` inside `limits`. */
  lemma Nested(exclusive: bool)
    ensures Disciplined(map[],
        [Acquire(LimitsLock, true), Acquire(ActiveLock, exclusive), Release(ActiveLock), Release(LimitsLock)])
  {
    var prog := [Acquire(LimitsLock, true), Acquire(ActiveLock, exclusive), Release(ActiveLock), Release(LimitsLock)];
    var one: map<Lock, bool> := map[LimitsLock := true];
    var two := one[ActiveLock := exclusive];
    assert two - {ActiveLock} == one && one - {LimitsLock} == map[];
    assert Disciplined(one, prog[3..]);
    assert prog[2..][1..] == prog[3..] && Disciplined(two, prog[2..]);
    assert prog[1..][1..] == prog[2..] && Disciplined(one, prog[1..]);
  }

  /** Every operation keeps the one order: `active` may be taken inside `limits`, and no other
      lock is taken while another is held. */
  lemma ProgramsAreDisciplined(op: Operation)
    ensures Disciplined(map[], Program(op))
  {
    assert Disciplined(map[], []);
    match op
    case CheckAndReserve => Nested(false);
    case AddConnection =>
      Bracket(LimitsLock, true, []);
      Bracket(ActiveLock, true, [Acquire(LimitsLock, true), Release(LimitsLock)]);
      assert Program(op) == [Acquire(ActiveLock, true), Release(ActiveLock)]
          + [Acquire(LimitsLock, true), Release(LimitsLock)];
    case DropFinalizer =>
      Nested(true);
      var tail := [Acquire(LimitsLock, true), Acquire(ActiveLock, true), Release(ActiveLock), Release(LimitsLock)];
      Bracket(SendersLock, true, tail);
      assert Program(op) == [Acquire(SendersLock, true), Release(SendersLock)] + tail;
    case _ =>
      Bracket(Program(op)[0].lock, Program(op)[0].exclusive, []);
      assert Program(op) == [Program(op)[0], Program(op)[1]] + [];
  }

  ghost predicate ThreadsDisciplined(st: State) {
    forall t :: t in st.threads ==> Disciplined(st.threads[t].held, st.threads[t].rest)
  }

  /** Two threads that hold the same lock hold it shared. */
  ghost predicate Exclusion(st: State) {
    forall t, u, lock :: t in st.threads && u in st.threads && t != u && lock in st.threads[t].held
        && lock in st.threads[u].held
      ==> !st.threads[t].held[lock] && !st.threads[u].held[lock]
  }

  lemma DisciplineStep(st: State, l: Label)
    requires ThreadsDisciplined(st)
    ensures ThreadsDisciplined(Next(st, l))
  {
    if l.Start? {
      ProgramsAreDisciplined(l.op);
    }
  }

  lemma ExclusionStep(st: State, l: Label)
    requires Exclusion(st)
    ensures Exclusion(Next(st, l))
  {
  }

  /** In every interleaving, locks exclude and every thread keeps the order. */
  lemma {:induction false} RunInv(ls: seq<Label>)
    ensures ThreadsDisciplined(Exec(IDLE, ls)) && Exclusion(Exec(IDLE, ls))
    decreases |ls|
  {
    if ls != [] {
      RunInv(ls[..|ls| - 1]);
      DisciplineStep(Exec(IDLE, ls[..|ls| - 1]), ls[|ls| - 1]);
      ExclusionStep(Exec(IDLE, ls[..|ls| - 1]), ls[|ls| - 1]);
    }
  }

  // ---- no cycle of waiters ---------------------------------------------------------------

  /** `t` cannot go on before `u` does: `u` holds the lock `t` waits for, or waits for it with an
      earlier ticket. */
  predicate Blocks(st: State, t: ThreadId, u: ThreadId) {
    && t in st.threads && u in st.threads && st.threads[t].Waits()
    && (|| (u != t && st.threads[t].rest[0].lock in st.threads[u].held)
        || (st.threads[u].Waits() && st.threads[u].rest[0].lock == st.threads[t].rest[0].lock
            && st.threads[u].ticket.value < st.threads[t].ticket.value))
  }

  /** `u` waits for a higher lock than `t`, or for the same lock with an earlier ticket. */
  predicate Above(st: State, t: ThreadId, u: ThreadId)
    requires t in st.threads && u in st.threads && st.threads[t].Waits() && st.threads[u].Waits()
  {
    var a, b := Rank(st.threads[t].rest[0].lock), Rank(st.threads[u].rest[0].lock);
    a < b || (a == b && st.threads[u].ticket.value < st.threads[t].ticket.value)
  }

  lemma BlockedGoesUp(st: State, t: ThreadId, u: ThreadId)
    requires ThreadsDisciplined(st) && Blocks(st, t, u) && st.threads[u].Waits()
    ensures Above(st, t, u)
  {
    assert Disciplined(st.threads[u].held, st.threads[u].rest);
  }

  ghost predicate IsCycle(st: State, c: seq<ThreadId>) {
    |c| > 0 && forall i :: 0 <= i < |c| ==> Blocks(st, c[i], c[if i + 1 < |c| then i + 1 else 0])
  }

  lemma {:induction false} ChainGoesUp(st: State, c: seq<ThreadId>, i: nat)
    requires ThreadsDisciplined(st) && IsCycle(st, c) && 0 < i < |c|
    ensures Blocks(st, c[0], c[1]) && Blocks(st, c[i], c[if i + 1 < |c| then i + 1 else 0])
    ensures Above(st, c[0], c[i])
  {
    assert Blocks(st, c[i - 1], c[i]) && Blocks(st, c[i], c[if i + 1 < |c| then i + 1 else 0]);
    BlockedGoesUp(st, c[i - 1], c[i]);
    if i > 1 {
      ChainGoesUp(st, c, i - 1);
    }
  }

  /** No reachable state has a cycle of threads each of which waits for the next. */
  lemma {:induction false} NoWaitCycle(ls: seq<Label>, c: seq<ThreadId>)
    ensures !IsCycle(Exec(IDLE, ls), c)
  {
    var st := Exec(IDLE, ls);
    RunInv(ls);
    if IsCycle(st, c) {
      assert Blocks(st, c[|c| - 1], c[0]) && Blocks(st, c[0], c[if 1 < |c| then 1 else 0]);
      BlockedGoesUp(st, c[|c| - 1], c[0]);
      if |c| > 1 {
        ChainGoesUp(st, c, |c| - 1);
      }
      assert false;
    }
  }

  // ---- somebody can always go on ---------------------------------------------------------

  lemma {:induction false} Topmost(st: State, who: set<ThreadId>) returns (top: ThreadId)
    requires who != {} && forall t :: t in who ==> t in st.threads && st.threads[t].Waits()
    ensures top in who && forall t :: t in who ==> !Above(st, top, t)
  {
    var x :| x in who;
    if who == {x} {
      top := x;
    } else {
      assert who - {x} != {};
      var best := Topmost(st, who - {x});
      top := if Above(st, best, x) then x else best;
      forall t | t in who
        ensures !Above(st, top, t)
      {
        assert t == x || !Above(st, best, t);
      }
    }
  }

  /** The next step of a thread that is not waiting. */
  function OwnStep(t: ThreadId, th: Thread): Label {
    if th.rest == [] then End(t) else if th.rest[0].Release? then Let(t) else Request(t)
  }

  /** The lock would let `t` pass under any policy: nobody holds it, nobody came before. */
  predicate Unblocked(st: State, t: ThreadId) {
    forall u :: u in st.threads ==> !Blocks(st, t, u)
  }

  /** As long as an operation is under way some thread has a step to take, and a step no lock
      policy can withhold: if it is a grant, nobody holds that lock and nobody waits before. */
  lemma {:induction false} SomebodyGoesOn(ls: seq<Label>)
    requires Exec(IDLE, ls).threads != map[]
    ensures var st := Exec(IDLE, ls);
      exists l :: Enabled(st, l) && !l.Start? && (l.Grant? ==> Unblocked(st, l.t))
  {
    var st := Exec(IDLE, ls);
    RunInv(ls);
    if t :| t in st.threads && !st.threads[t].Waits() {
      assert Enabled(st, OwnStep(t, st.threads[t]));
    } else {
      assert st.threads.Keys != {};
      var top := Topmost(st, st.threads.Keys);
      forall u | u in st.threads
        ensures !Blocks(st, top, u)
      {
        if Blocks(st, top, u) {
          BlockedGoesUp(st, top, u);
        }
      }
      assert Compatible(st, top) by {
        assert forall u :: u in st.threads ==> !Blocks(st, top, u);
      }
      assert Enabled(st, Grant(top)) && Unblocked(st, Grant(top).t);
    }
  }
}
