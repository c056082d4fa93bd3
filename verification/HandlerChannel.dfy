/**
 A protocol handler and its bounded channel, from the first send to the end of its drain.

 A send first waits for a permit; with the permit it claims a slot, and only then writes it.
 The receiver takes slots in order and cannot pass one that is claimed but not yet written.
 Closing the channel stops permits from being handed out, not sends that already have one, and
 the receiver sees the end only once the channel is closed and every permit is back.

 `setup` tells the two loops apart. The hook loop runs every trigger it receives. The setup loop
 spawns a task per request, drops what it receives while draining, and aborts the tasks still
 running when it ends. `Abort` is the hard abort of the handler task, which bypasses the drain.
 */
module HandlerChannel {

  type Item = nat

  datatype Slot = Slot(item: Item, written: bool)

  datatype State = State(
    setup: bool,
    capacity: nat,
    waiting: set<Item>,
    permits: set<Item>,
    slots: seq<Slot>,
    signaled: bool,
    closed: bool,
    exited: bool,
    aborted: bool,
    tasks: set<Item>,
    answered: set<Item>,
    failed: set<Item>,
    dropped: set<Item>,
    refused: set<Item>,
    accepted: set<Item>,
    claimed: seq<Item>,
    received: seq<Item>
  )

  datatype Label =
    | StartSend(x: Item)
    | TakePermit(x: Item)
    | ClaimSlot(x: Item)
    | WriteSlot(i: nat)
    | RefuseSend(x: Item)
    | CancelSend(x: Item)
    | Signal
    | Close
    | Receive
    | Reply(x: Item)
    | TaskDies(x: Item)
    | Exit
    | Abort

  function Init(setup: bool, capacity: nat): State {
    State(setup, capacity, {}, {}, [], false, false, false, false, {}, {}, {}, {}, {}, {}, [], [])
  }

  predicate Enabled(st: State, l: Label) {
    match l
    case StartSend(x) => x !in st.waiting && x !in st.accepted && x !in st.refused
    case TakePermit(x) => x in st.waiting && !st.closed && |st.permits| + |st.slots| < st.capacity
    case ClaimSlot(x) => x in st.permits
    case WriteSlot(i) => i < |st.slots| && !st.slots[i].written
    case RefuseSend(x) => x in st.waiting && st.closed
    case CancelSend(x) => x in st.waiting
    case Signal => true
    case Close => st.signaled && !st.closed && !st.exited
    case Receive => !st.exited && st.slots != [] && st.slots[0].written
    case Reply(x) => x in st.tasks
    case TaskDies(x) => x in st.tasks
    case Exit => !st.exited && st.closed && st.permits == {} && st.slots == []
    case Abort => !st.exited
  }

  /** What the loop does with a received item. */
  function Handled(st: State, x: Item): State {
    if !st.setup then st.(answered := st.answered + {x})
    else if st.closed then st.(failed := st.failed + {x})
    else st.(tasks := st.tasks + {x})
  }

  function Next(st: State, l: Label): State {
    if !Enabled(st, l) then st
    else match l
      case StartSend(x) => st.(waiting := st.waiting + {x})
      case TakePermit(x) => st.(waiting := st.waiting - {x}, permits := st.permits + {x}, accepted := st.accepted + {x})
      case ClaimSlot(x) =>
        st.(permits := st.permits - {x}, slots := st.slots + [Slot(x, false)], claimed := st.claimed + [x])
      case WriteSlot(i) => st.(slots := st.slots[i := st.slots[i].(written := true)])
      case RefuseSend(x) => st.(waiting := st.waiting - {x}, refused := st.refused + {x})
      case CancelSend(x) => st.(waiting := st.waiting - {x}, refused := st.refused + {x})
      case Signal => st.(signaled := true)
      case Close => st.(closed := true)
      case Receive =>
        Handled(st, st.slots[0].item).(slots := st.slots[1..], received := st.received + [st.slots[0].item])
      case Reply(x) => st.(tasks := st.tasks - {x}, answered := st.answered + {x})
      case TaskDies(x) => st.(tasks := st.tasks - {x}, dropped := st.dropped + {x})
      case Exit => st.(exited := true, tasks := {}, dropped := st.dropped + st.tasks)
      case Abort => st.(exited := true, closed := true, aborted := true, tasks := {}, dropped := st.dropped + st.tasks)
  }

  function Exec(st: State, ls: seq<Label>): State
    decreases |ls|
  {
    if ls == [] then st else Next(Exec(st, ls[..|ls| - 1]), ls[|ls| - 1])
  }

  // ---- nothing is lost, nothing is handled twice -----------------------------------------

  function Items(slots: seq<Slot>): seq<Item> {
    seq(|slots|, i requires 0 <= i < |slots| => slots[i].item)
  }

  /** Every accepted item is in exactly one place, once. */
  ghost predicate Conserved(st: State) {
    multiset(st.accepted) == multiset(st.permits) + multiset(Items(st.slots)) + multiset(st.tasks)
                             + multiset(st.answered) + multiset(st.failed) + multiset(st.dropped)
  }

  /** Items are received in the order in which their slots were claimed, and whoever has a permit
      has a slot or is about to claim one. */
  ghost predicate InOrder(st: State) {
    && st.claimed == st.received + Items(st.slots)
    && multiset(st.claimed) + multiset(st.permits) == multiset(st.accepted)
  }

  ghost predicate LoopInv(st: State) {
    && st.waiting !! st.accepted
    && |st.permits| + |st.slots| <= st.capacity
    && (st.exited && !st.aborted ==> st.closed && st.permits == {} && st.slots == [])
    && (st.exited ==> st.tasks == {} && st.closed)
    && (!st.setup ==> st.tasks == {} && st.failed == {} && st.dropped == {})
  }

  ghost predicate Inv(st: State) {
    Conserved(st) && InOrder(st) && LoopInv(st)
  }

  /** A member of one of the places is in none of the others. */
  lemma PlacesApart(st: State, x: Item)
    requires Conserved(st)
    ensures x in st.permits ==>
        x in st.accepted && x !in st.tasks && x !in st.answered && x !in st.failed && x !in st.dropped
    ensures x in st.tasks ==> x in st.accepted && x !in st.answered && x !in st.failed && x !in st.dropped
    ensures x in Items(st.slots) ==>
        x in st.accepted && x !in st.tasks && x !in st.answered && x !in st.failed && x !in st.dropped
  {
    var all := multiset(st.permits) + multiset(Items(st.slots)) + multiset(st.tasks) + multiset(st.answered)
        + multiset(st.failed) + multiset(st.dropped);
    assert multiset(st.accepted)[x] <= 1;
    assert all[x] == multiset(st.permits)[x] + multiset(Items(st.slots))[x] + multiset(st.tasks)[x]
        + multiset(st.answered)[x] + multiset(st.failed)[x] + multiset(st.dropped)[x];
    assert x in Items(st.slots) ==> x in multiset(Items(st.slots));
  }

  lemma AddOne(s: set<Item>, x: Item)
    requires x !in s
    ensures multiset(s + {x}) == multiset(s) + multiset{x}
  {
  }

  lemma RemoveOne(s: set<Item>, x: Item)
    requires x in s
    ensures multiset(s - {x}) + multiset{x} == multiset(s)
  {
  }

  lemma Merge(a: set<Item>, b: set<Item>)
    requires a !! b
    ensures multiset(a + b) == multiset(a) + multiset(b)
  {
  }

  lemma WriteKeepsItems(slots: seq<Slot>, i: nat)
    requires i < |slots|
    ensures Items(slots[i := slots[i].(written := true)]) == Items(slots)
  {
  }

  lemma TakePermitStep(st: State, x: Item)
    requires Inv(st) && Enabled(st, TakePermit(x))
    ensures Inv(Next(st, TakePermit(x)))
  {
    PlacesApart(st, x);
    AddOne(st.accepted, x);
    AddOne(st.permits, x);
  }

  lemma ClaimSlotStep(st: State, x: Item)
    requires Inv(st) && Enabled(st, ClaimSlot(x))
    ensures Inv(Next(st, ClaimSlot(x)))
  {
    RemoveOne(st.permits, x);
    assert Items(st.slots + [Slot(x, false)]) == Items(st.slots) + [x];
  }

  lemma WriteSlotStep(st: State, i: nat)
    requires Inv(st) && Enabled(st, WriteSlot(i))
    ensures Inv(Next(st, WriteSlot(i)))
  {
    WriteKeepsItems(st.slots, i);
  }

  lemma ReceiveConserves(st: State)
    requires Conserved(st) && Enabled(st, Receive)
    ensures Conserved(Next(st, Receive))
  {
    var x := st.slots[0].item;
    assert Items(st.slots) == [x] + Items(st.slots[1..]);
    PlacesApart(st, x);
    AddOne(if !st.setup then st.answered else if st.closed then st.failed else st.tasks, x);
  }

  lemma ReceiveInOrder(st: State)
    requires InOrder(st) && Enabled(st, Receive)
    ensures InOrder(Next(st, Receive))
  {
    var x := st.slots[0].item;
    assert Items(st.slots) == [x] + Items(st.slots[1..]);
    assert st.received + [x] + Items(st.slots[1..]) == st.received + Items(st.slots);
  }

  lemma ReceiveStep(st: State)
    requires Inv(st) && Enabled(st, Receive)
    ensures Inv(Next(st, Receive))
  {
    ReceiveConserves(st);
    ReceiveInOrder(st);
  }

  lemma TaskStep(st: State, l: Label)
    requires Inv(st) && Enabled(st, l) && (l.Reply? || l.TaskDies?)
    ensures Inv(Next(st, l))
  {
    PlacesApart(st, l.x);
    RemoveOne(st.tasks, l.x);
    AddOne(if l.Reply? then st.answered else st.dropped, l.x);
  }

  lemma ExitStep(st: State, l: Label)
    requires Inv(st) && Enabled(st, l) && (l.Exit? || l.Abort?)
    ensures Inv(Next(st, l))
  {
    forall x | x in st.tasks
      ensures x !in st.dropped
    {
      PlacesApart(st, x);
    }
    Merge(st.dropped, st.tasks);
  }

  lemma StepInv(st: State, l: Label)
    requires Inv(st)
    ensures Inv(Next(st, l))
  {
    if Enabled(st, l) {
      match l
      case Receive => ReceiveStep(st);
      case Reply(_) => TaskStep(st, l);
      case TaskDies(_) => TaskStep(st, l);
      case Exit => ExitStep(st, l);
      case Abort => ExitStep(st, l);
      case TakePermit(x) => TakePermitStep(st, x);
      case ClaimSlot(x) => ClaimSlotStep(st, x);
      case WriteSlot(i) => WriteSlotStep(st, i);
      case _ =>
    }
  }

  lemma {:induction false} RunInv(setup: bool, capacity: nat, ls: seq<Label>)
    ensures Inv(Exec(Init(setup, capacity), ls))
    decreases |ls|
  {
    if ls != [] {
      RunInv(setup, capacity, ls[..|ls| - 1]);
      StepInv(Exec(Init(setup, capacity), ls[..|ls| - 1]), ls[|ls| - 1]);
    }
  }

  lemma SameElements(a: set<Item>, b: set<Item>)
    requires multiset(a) == multiset(b)
    ensures a == b
  {
    assert forall x :: x in a <==> x in multiset(a);
    assert forall x :: x in b <==> x in multiset(b);
  }

  /** The hook loop ends only after it has run every trigger that was ever accepted, mid-send
      ones included, each once and in the order the channel took them. */
  lemma {:induction false} HookLoopRunsEverything(capacity: nat, ls: seq<Label>)
    requires var st := Exec(Init(false, capacity), ls); st.exited && !st.aborted
    ensures var st := Exec(Init(false, capacity), ls);
      && st.answered == st.accepted
      && st.received == st.claimed && multiset(st.received) == multiset(st.accepted)
  {
    RunInv(false, capacity, ls);
    HookKind(capacity, ls);
    var st := Exec(Init(false, capacity), ls);
    assert Items([]) == [];
    SameElements(st.answered, st.accepted);
    assert st.received + [] == st.received;
  }

  lemma {:induction false} HookKind(capacity: nat, ls: seq<Label>)
    ensures !Exec(Init(false, capacity), ls).setup
    decreases |ls|
  {
    if ls != [] {
      HookKind(capacity, ls[..|ls| - 1]);
      SameKind(Exec(Init(false, capacity), ls[..|ls| - 1]), ls[|ls| - 1]);
    }
  }

  lemma SameKind(st: State, l: Label)
    ensures Next(st, l).setup == st.setup
  {
  }

  /** The setup loop ends with every accepted request resolved exactly once: answered by its
      task, failed in the drain, or dropped with its task. */
  lemma {:induction false} SetupLoopResolvesEverything(capacity: nat, ls: seq<Label>)
    requires var st := Exec(Init(true, capacity), ls); st.exited && !st.aborted
    ensures var st := Exec(Init(true, capacity), ls);
      multiset(st.accepted) == multiset(st.answered) + multiset(st.failed) + multiset(st.dropped)
  {
    RunInv(true, capacity, ls);
    assert Items([]) == [];
  }

  // ---- the drain ends --------------------------------------------------------------------

  /** The steps left in the slots: a write and a receive, or only a receive. */
  function SlotWork(slots: seq<Slot>): nat {
    if slots == [] then 0 else (if slots[0].written then 1 else 2) + SlotWork(slots[1..])
  }

  /** The steps a closed channel still has to take before its end shows. */
  function Work(st: State): nat {
    3 * |st.permits| + SlotWork(st.slots)
  }

  predicate DrainLabel(l: Label) {
    l.ClaimSlot? || l.WriteSlot? || l.Receive?
  }

  lemma {:induction false} SlotWorkAppend(slots: seq<Slot>, x: Item)
    ensures SlotWork(slots + [Slot(x, false)]) == SlotWork(slots) + 2
  {
    if slots == [] {
      assert slots + [Slot(x, false)] == [Slot(x, false)];
    } else {
      assert (slots + [Slot(x, false)])[1..] == slots[1..] + [Slot(x, false)];
      SlotWorkAppend(slots[1..], x);
    }
  }

  lemma {:induction false} SlotWorkWrite(slots: seq<Slot>, i: nat)
    requires i < |slots| && !slots[i].written
    ensures SlotWork(slots[i := slots[i].(written := true)]) == SlotWork(slots) - 1
  {
    var slots' := slots[i := slots[i].(written := true)];
    if i == 0 {
      assert slots'[1..] == slots[1..];
    } else {
      assert slots'[1..] == slots[1..][i - 1 := slots[1..][i - 1].(written := true)];
      SlotWorkWrite(slots[1..], i - 1);
    }
  }

  /** Once the channel is closed no step adds work, and each step of the drain takes some away. */
  lemma DrainStep(st: State, l: Label)
    requires st.closed
    ensures Next(st, l).closed
    ensures if DrainLabel(l) && Enabled(st, l) then Work(Next(st, l)) == Work(st) - 1 else Work(Next(st, l)) == Work(st)
  {
    if Enabled(st, l) {
      match l
      case ClaimSlot(x) => SlotWorkAppend(st.slots, x);
      case WriteSlot(i) => SlotWorkWrite(st.slots, i);
      case _ =>
    }
  }

  /** The number of drain steps that take effect in a run. */
  function DrainSteps(st: State, ls: seq<Label>): nat
    decreases |ls|
  {
    if ls == [] then 0
    else
      var l := ls[|ls| - 1];
      DrainSteps(st, ls[..|ls| - 1]) + (if DrainLabel(l) && Enabled(Exec(st, ls[..|ls| - 1]), l) then 1 else 0)
  }

  /** In every run from a closed channel, steps taken and steps left add up: the drain cannot go
      on for longer than the work there was when the channel closed. */
  lemma {:induction false} DrainIsBounded(st: State, ls: seq<Label>)
    requires st.closed
    ensures Exec(st, ls).closed && DrainSteps(st, ls) + Work(Exec(st, ls)) == Work(st)
    decreases |ls|
  {
    if ls != [] {
      DrainIsBounded(st, ls[..|ls| - 1]);
      DrainStep(Exec(st, ls[..|ls| - 1]), ls[|ls| - 1]);
    }
  }

  /** And it never gets stuck before its end: there is a drain step to take, or the end shows. */
  lemma DrainNeverSticks(st: State)
    requires st.closed && !st.exited
    ensures Work(st) > 0 ==> exists l :: DrainLabel(l) && Enabled(st, l)
    ensures Work(st) == 0 ==> Enabled(st, Exit)
  {
    if st.permits != {} {
      var x :| x in st.permits;
      assert Enabled(st, ClaimSlot(x)) && DrainLabel(ClaimSlot(x));
    } else if st.slots != [] {
      var l := if st.slots[0].written then Receive else WriteSlot(0);
      assert Enabled(st, l) && DrainLabel(l);
    }
  }
}
