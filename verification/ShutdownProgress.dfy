/**
 A graceful shutdown can always get to its end. From every reachable state of `HookRefinement` that
 is not voided, some continuation signals the handlers with all hooks paired: no interleaving leads
 to a state from which the drains cannot be completed. What has to happen is the ordinary progress of
 tasks that are there already, so the proof gives each state a measure and a step that lowers it.

 The channels have room for at least one item: their capacity is the connection limit, which is not zero.
 */
module ShutdownProgress {
  import opened Util
  import opened Net
  import L = Lifecycle
  import H = HookPairing
  import T = HookTasks
  import R = HookRefinement

  type ConnId = L.ConnId
  type SetupId = L.SetupId
  type FinalizerId = L.FinalizerId
  type CallerId = L.CallerId

  // ---- the invariant ----------------------------------------------------------------------

  /** Shutdowns under way and their gates go together, and only a disconnect has a stage past its hook. */
  ghost predicate Orderly(h: H.State) {
    h.gates.Keys == h.core.callers.Keys && (forall id :: id in h.tasks ==> !h.tasks[id].stage.Running?)
  }

  ghost predicate Inv(r: R.State) {
    && R.AddingInv(r) && T.Inv(R.Abs(r)) && R.PermitsInv(r) && R.SnapshotsWait(r)
    && Orderly(r.t.h)
  }

  lemma CallersKeys(h: H.State, c: H.Label)
    requires H.Enabled(h, c) && !c.TakeSnapshot? && !c.HardAbort?
    ensures H.CoreAfter(h, c).callers.Keys == h.core.callers.Keys
  {
    H.Projects(h, c);
    var p := H.Projected(c);
    if c.AttemptDisconnect? {
      AttemptCallers(h.core, c.k, c.addr, c.f);
    } else if p.Some? && L.Enabled(h.core, p.value) {
      L.CallersFrame(h.core, p.value);
    }
  }

  lemma AttemptCallers(core: L.State, k: CallerId, addr: SocketAddr, f: FinalizerId)
    requires k in core.callers && f !in core.finalizers
    ensures L.AttemptStep(core, k, addr, f).callers
         == core.callers[k := core.callers[k].(pending := core.callers[k].pending - {addr})]
  {
  }

  lemma OrderlyHooks(h: H.State, c: H.Label)
    requires H.Enabled(h, c) && Orderly(h)
    ensures Orderly(H.Apply(h, c))
  {
    if !c.TakeSnapshot? && !c.HardAbort? {
      CallersKeys(h, c);
    }
  }

  lemma OtherOrderly(r: R.State, l: T.Label)
    requires Orderly(r.t.h) && R.Enabled(r, R.Other(l))
    ensures Orderly(R.Apply(r, R.Other(l)).t.h)
  {
    T.Projects(r.t, l);
    assert R.Apply(r, R.Other(l)).t == T.Next(r.t, l);
    if l.Hook? {
      OrderlyHooks(r.t.h, l.l);
    }
  }

  lemma OwnOrderly(r: R.State, l: R.Label)
    requires Orderly(r.t.h) && R.Enabled(r, l) && !l.Other?
    ensures Orderly(R.Apply(r, l).t.h)
  {
  }

  lemma OrderlyStep(r: R.State, l: R.Label)
    requires Orderly(r.t.h)
    ensures Orderly(R.Next(r, l).t.h)
  {
    if R.Enabled(r, l) {
      if l.Other? {
        OtherOrderly(r, l.l);
      } else {
        OwnOrderly(r, l);
      }
    }
  }

  lemma {:induction false} OrderlyRun(cfg: L.Config, abortable: bool, capacity: nat, ls: seq<R.Label>)
    ensures Orderly(R.Exec(R.Init(cfg, abortable, capacity), ls).t.h)
    decreases |ls|
  {
    if ls != [] {
      OrderlyRun(cfg, abortable, capacity, ls[..|ls| - 1]);
      OrderlyStep(R.Exec(R.Init(cfg, abortable, capacity), ls[..|ls| - 1]), ls[|ls| - 1]);
    }
  }

  lemma {:induction false} RunInv(cfg: L.Config, abortable: bool, capacity: nat, ls: seq<R.Label>)
    ensures Inv(R.Exec(R.Init(cfg, abortable, capacity), ls))
  {
    R.AbsInv(cfg, abortable, capacity, ls);
    R.PermitsRun(cfg, abortable, capacity, ls);
    R.SnapshotsAlwaysWait(cfg, abortable, capacity, ls);
    OrderlyRun(cfg, abortable, capacity, ls);
  }

  /** Shutdown `k` has its snapshot, the run is not voided, and the handlers are not signalled yet. */
  ghost predicate Winding(r: R.State, k: CallerId) {
    && Inv(r) && r.capacity > 0
    && k in r.t.h.core.callers && k in r.t.h.gates && !r.t.h.voided && !r.t.h.signaled
  }

  /** What the steps towards the signal need: nobody is inside `add`, the flag is up, the channels
      are open, and whoever has a permit or a slot is about to send or waiting. */
  ghost predicate Ready(r: R.State, k: CallerId) {
    var h := r.t.h;
    && r.adding.None? && r.capacity > 0 && k in h.core.callers && k in h.gates && !h.voided && !h.signaled
    && h.core.sh.underway && !h.oc.closed && !h.od.closed && r.t.leaving == {} && r.t.closing == {}
    && h.disc.Keys == h.core.finalizers.Keys
    && (forall s :: s in h.holders ==>
          s in h.core.setups && !h.core.setups[s].phase.Permitted? && !h.core.setups[s].phase.Reserved?)
  }

  lemma ChannelsAreOpen(t: T.State)
    requires T.Inv(t) && !t.h.voided && !t.h.signaled
    ensures !t.h.oc.closed && !t.h.od.closed && t.leaving == {} && t.closing == {}
  {
  }

  lemma WindingIsReady(r: R.State, k: CallerId)
    requires Winding(r, k)
    ensures Ready(r, k) && R.Abs(r) == r.t && T.Inv(r.t)
  {
    assert r.adding.None?;
    ChannelsAreOpen(r.t);
  }

  // ---- the measure ------------------------------------------------------------------------

  ghost function Unsent(tasks: map<ConnId, H.Task>): set<ConnId> {
    set id | id in tasks && tasks[id].stage.ToTrigger?
  }

  ghost function UnsentDisc(disc: map<FinalizerId, H.Stage>): set<FinalizerId> {
    set f | f in disc && disc[f].ToTrigger?
  }

  ghost function Unhooked(disc: map<FinalizerId, H.Stage>): set<FinalizerId> {
    set f | f in disc && !disc[f].Running?
  }

  ghost function Guarding(setups: map<SetupId, L.Setup>, holders: set<SetupId>): set<SetupId> {
    set s | s in holders && s in setups && setups[s].phase.HoldsGuard()
  }

  ghost function Building(setups: map<SetupId, L.Setup>, holders: set<SetupId>): set<SetupId> {
    set s | s in holders && s in setups && setups[s].phase.Building?
  }

  /** What the setups that hold a scheduling guard have yet to do. */
  ghost function HolderWork(setups: map<SetupId, L.Setup>, holders: set<SetupId>): nat {
    |holders| + |Guarding(setups, holders)| + |Building(setups, holders)|
  }

  /** What the scheduling tasks and the sends to their handler have yet to do. */
  ghost function ConnectWork(tasks: map<ConnId, H.Task>, sends: R.Sends<ConnId>, queue: seq<H.Item>): int {
    |tasks| + 4 * |Unsent(tasks)| - |sends.permits| + |sends.unwritten| + |queue|
  }

  ghost function DisconnectWork(disc: map<FinalizerId, H.Stage>, sends: R.Sends<FinalizerId>, queue: seq<H.Item>): int {
    |disc| + |Unhooked(disc)| + 4 * |UnsentDisc(disc)| - |sends.permits| + |sends.unwritten| + |queue|
  }

  ghost function GateWork(gate: H.Gate): nat {
    match gate case Fanning => 3 case ActiveDrained => 2 case SchedDrained => 1
  }

  ghost function Work(r: R.State, k: CallerId): int
    requires k in r.t.h.core.callers && k in r.t.h.gates
  {
    var h := r.t.h;
    10 * |h.core.callers[k].pending| + 10 * HolderWork(h.core.setups, h.holders)
    + ConnectWork(h.tasks, r.connects, h.oc.queue) + DisconnectWork(h.disc, r.disconnects, h.od.queue)
    + GateWork(h.gates[k])
  }

  lemma WorkIsPositive(r: R.State, k: CallerId)
    requires R.PermitsInv(r) && k in r.t.h.core.callers && k in r.t.h.gates
    ensures Work(r, k) > 0
  {
    SubsetSize(r.connects.permits, Unsent(r.t.h.tasks));
    SubsetSize(r.disconnects.permits, UnsentDisc(r.t.h.disc));
  }

  /** The step belongs to the shutdown's progress: it lowers the measure or gives the signal. */
  ghost predicate Helps(r: R.State, k: CallerId, l: R.Label)
    requires k in r.t.h.core.callers && k in r.t.h.gates
  {
    var r' := R.Next(r, l);
    && k in r'.t.h.core.callers && k in r'.t.h.gates && !r'.t.h.voided && r'.capacity == r.capacity
    && (r'.t.h.signaled || Work(r', k) < Work(r, k))
  }

  // ---- sends and receives under way -------------------------------------------------------

  lemma WritingHelps(r: R.State, k: CallerId) returns (l: R.Label)
    requires Ready(r, k) && (r.connects.unwritten != {} || r.disconnects.unwritten != {})
    ensures Helps(r, k, l)
  {
    if id :| id in r.connects.unwritten {
      l := R.WriteConnect(id);
    } else {
      var f :| f in r.disconnects.unwritten;
      l := R.WriteDisconnect(f);
    }
  }

  /** The hook layer's own part of a step, with nobody inside `add`. */
  lemma Effect(r: R.State, c: H.Label)
    requires r.adding.None? && R.Enabled(r, R.Other(T.Hook(c)))
    ensures var r' := R.Next(r, R.Other(T.Hook(c)));
      && r'.t.h == H.Apply(r.t.h, c) && r'.capacity == r.capacity
      && (!c.SendOnConnect? ==> r'.connects == r.connects)
      && (!c.SendOnDisconnect? ==> r'.disconnects == r.disconnects)
  {
    T.Projects(r.t, T.Hook(c));
  }

  lemma SentWork(tasks: map<ConnId, H.Task>, sends: R.Sends<ConnId>, queue: seq<H.Item>, id: ConnId, item: H.Item)
    requires id in tasks && tasks[id].stage.ToTrigger? && id in sends.permits && id !in sends.unwritten
    ensures var tasks' := tasks[id := tasks[id].(stage := H.Waiting)];
      ConnectWork(tasks', R.Sends(sends.permits - {id}, sends.unwritten + {id}), queue + [item])
      < ConnectWork(tasks, sends, queue)
  {
    var tasks' := tasks[id := tasks[id].(stage := H.Waiting)];
    assert tasks'.Keys == tasks.Keys;
    assert Unsent(tasks') == Unsent(tasks) - {id};
  }

  lemma SentDiscWork(disc: map<FinalizerId, H.Stage>, sends: R.Sends<FinalizerId>, queue: seq<H.Item>, f: FinalizerId,
                     item: H.Item)
    requires f in disc && disc[f].ToTrigger? && f in sends.permits && f !in sends.unwritten
    ensures DisconnectWork(disc[f := H.Waiting], R.Sends(sends.permits - {f}, sends.unwritten + {f}), queue + [item])
      < DisconnectWork(disc, sends, queue)
  {
    var disc' := disc[f := H.Waiting];
    assert disc'.Keys == disc.Keys;
    assert UnsentDisc(disc') == UnsentDisc(disc) - {f};
    assert Unhooked(disc') == Unhooked(disc);
  }

  lemma SendingConnectHelps(r: R.State, k: CallerId, id: ConnId)
    requires Ready(r, k) && R.PermitsInv(r) && id in r.connects.permits
    ensures Helps(r, k, R.Other(T.Hook(H.SendOnConnect(id))))
  {
    Effect(r, H.SendOnConnect(id));
    SentWork(r.t.h.tasks, r.connects, r.t.h.oc.queue, id, H.Item(id, id));
  }

  lemma SendingDisconnectHelps(r: R.State, k: CallerId, f: FinalizerId)
    requires Ready(r, k) && R.PermitsInv(r) && f in r.disconnects.permits
    ensures Helps(r, k, R.Other(T.Hook(H.SendOnDisconnect(f))))
  {
    Effect(r, H.SendOnDisconnect(f));
    SentDiscWork(r.t.h.disc, r.disconnects, r.t.h.od.queue, f, H.Item(f, r.t.h.core.finalizers[f].id));
  }

  lemma ReceivedWork(h: H.State, sends: R.Sends<ConnId>)
    requires h.oc.queue != []
    ensures ConnectWork(H.TasksAfter(h, H.ProcessOnConnect), sends, h.oc.queue[1..])
      < ConnectWork(h.tasks, sends, h.oc.queue)
  {
    var tasks' := H.TasksAfter(h, H.ProcessOnConnect);
    assert tasks'.Keys == h.tasks.Keys;
    assert Unsent(tasks') == Unsent(h.tasks);
  }

  lemma ReceivedDiscWork(h: H.State, sends: R.Sends<FinalizerId>)
    requires h.od.queue != []
    ensures DisconnectWork(H.DiscAfter(h, H.ProcessOnDisconnect), sends, h.od.queue[1..])
      < DisconnectWork(h.disc, sends, h.od.queue)
  {
    var disc' := H.DiscAfter(h, H.ProcessOnDisconnect);
    assert disc'.Keys == h.disc.Keys;
    assert UnsentDisc(disc') == UnsentDisc(h.disc);
    assert Unhooked(disc') == Unhooked(h.disc);
  }

  lemma ReceivingConnectHelps(r: R.State, k: CallerId)
    requires Ready(r, k) && r.t.h.oc.queue != [] && r.connects.unwritten == {}
    ensures Helps(r, k, R.Other(T.Hook(H.ProcessOnConnect)))
  {
    Effect(r, H.ProcessOnConnect);
    ReceivedWork(r.t.h, r.connects);
  }

  lemma ReceivingDisconnectHelps(r: R.State, k: CallerId)
    requires Ready(r, k) && r.t.h.od.queue != [] && r.disconnects.unwritten == {}
    ensures Helps(r, k, R.Other(T.Hook(H.ProcessOnDisconnect)))
  {
    Effect(r, H.ProcessOnDisconnect);
    ReceivedDiscWork(r.t.h, r.disconnects);
  }

  // ---- setups with a scheduling guard -----------------------------------------------------

  /** A setup moves on: refused by `add`, rid of its guard, or done with its scheduling guard. */
  lemma PhaseWork(setups: map<SetupId, L.Setup>, holders: set<SetupId>, s: SetupId, phase: L.Phase)
    requires s in holders && s in setups
    requires (setups[s].phase.Building? && phase.Refused?)
      || (setups[s].phase.HoldsGuard() && !setups[s].phase.Reserved? && !phase.HoldsGuard())
    ensures HolderWork(setups[s := L.Setup(setups[s].addr, phase)], holders) < HolderWork(setups, holders)
  {
    var setups' := setups[s := L.Setup(setups[s].addr, phase)];
    var g, b := Guarding(setups, holders), Building(setups, holders);
    assert Guarding(setups', holders) == if phase.HoldsGuard() then g else g - {s};
    assert Building(setups', holders) == b - {s};
  }

  lemma GivenUpWork(setups: map<SetupId, L.Setup>, holders: set<SetupId>, s: SetupId)
    requires s in holders && s in setups && !setups[s].phase.HoldsGuard()
    ensures HolderWork(setups, holders - {s}) < HolderWork(setups, holders)
  {
    assert Guarding(setups, holders - {s}) == Guarding(setups, holders);
    assert Building(setups, holders - {s}) == Building(setups, holders);
  }

  lemma CheckingHelps(r: R.State, k: CallerId, s: SetupId)
    requires Ready(r, k) && s in r.t.h.holders && r.t.h.core.setups[s].phase.Building?
    ensures Helps(r, k, R.CheckFlag(s))
  {
    PhaseWork(r.t.h.core.setups, r.t.h.holders, s, L.Refused(r.t.h.core.setups[s].phase.id));
  }

  lemma GuardDropHelps(r: R.State, k: CallerId, s: SetupId)
    requires Ready(r, k) && s in r.t.h.holders
    requires r.t.h.core.setups[s].phase.Refused? || r.t.h.core.setups[s].phase.Added?
    ensures Helps(r, k, R.Other(T.Hook(H.Core(L.DropGuard(s)))))
  {
    var phase := r.t.h.core.setups[s].phase;
    Effect(r, H.Core(L.DropGuard(s)));
    PhaseWork(r.t.h.core.setups, r.t.h.holders, s, if phase.Added? then L.Live(phase.id) else L.Done);
  }

  lemma GivingUpHelps(r: R.State, k: CallerId, s: SetupId)
    requires Ready(r, k) && s in r.t.h.holders && r.t.h.core.setups[s].phase.Done?
    ensures Helps(r, k, R.Other(T.Hook(H.SchedAbort(s))))
  {
    Effect(r, H.SchedAbort(s));
    GivenUpWork(r.t.h.core.setups, r.t.h.holders, s);
  }

  lemma SpawnedWork(tasks: map<ConnId, H.Task>, sends: R.Sends<ConnId>, queue: seq<H.Item>, id: ConnId,
                    addr: SocketAddr)
    ensures ConnectWork(tasks[id := H.Task(addr, H.ToTrigger)], sends, queue) <= ConnectWork(tasks, sends, queue) + 5
  {
    var tasks' := tasks[id := H.Task(addr, H.ToTrigger)];
    assert tasks'.Keys == tasks.Keys + {id};
    assert Unsent(tasks') == Unsent(tasks) + {id};
  }

  lemma SpawningHelps(r: R.State, k: CallerId, s: SetupId)
    requires Ready(r, k) && s in r.t.h.holders && r.t.h.core.setups[s].phase.Live?
    ensures Helps(r, k, R.Other(T.Hook(H.SpawnSched(s))))
  {
    Effect(r, H.SpawnSched(s));
    GivenUpWork(r.t.h.core.setups, r.t.h.holders, s);
    SpawnedWork(r.t.h.tasks, r.connects, r.t.h.oc.queue, r.t.h.core.setups[s].phase.id, r.t.h.core.setups[s].addr);
  }

  lemma HolderHelps(r: R.State, k: CallerId) returns (l: R.Label)
    requires Ready(r, k) && r.t.h.holders != {}
    ensures Helps(r, k, l)
  {
    var s :| s in r.t.h.holders;
    match r.t.h.core.setups[s].phase {
      case Building(_) =>
        l := R.CheckFlag(s);
        CheckingHelps(r, k, s);
      case Done =>
        l := R.Other(T.Hook(H.SchedAbort(s)));
        GivingUpHelps(r, k, s);
      case Live(_) =>
        l := R.Other(T.Hook(H.SpawnSched(s)));
        SpawningHelps(r, k, s);
      case _ =>
        l := R.Other(T.Hook(H.Core(L.DropGuard(s))));
        GuardDropHelps(r, k, s);
    }
  }

  // ---- the claims of the snapshot ---------------------------------------------------------

  lemma Above(s: set<nat>) returns (n: nat)
    ensures forall x :: x in s ==> x < n
    decreases |s|
  {
    n := 0;
    if s != {} {
      var x :| x in s;
      var m := Above(s - {x});
      assert s == (s - {x}) + {x};
      n := if x < m then m else x + 1;
    }
  }

  lemma ArmedSets(disc: map<FinalizerId, H.Stage>, f: FinalizerId)
    ensures var disc' := disc[f := H.ToTrigger];
      && disc'.Keys == disc.Keys + {f}
      && UnsentDisc(disc') == UnsentDisc(disc) + {f} && Unhooked(disc') == Unhooked(disc) + {f}
  {
  }

  lemma ArmedWork(disc: map<FinalizerId, H.Stage>, f: FinalizerId, sends: R.Sends<FinalizerId>, queue: seq<H.Item>)
    ensures DisconnectWork(disc[f := H.ToTrigger], sends, queue) <= DisconnectWork(disc, sends, queue) + 6
  {
    ArmedSets(disc, f);
    UnionSize(disc.Keys, {f});
    UnionSize(UnsentDisc(disc), {f});
    UnionSize(Unhooked(disc), {f});
  }

  lemma AttemptingHelps(r: R.State, k: CallerId, addr: SocketAddr, f: FinalizerId)
    requires Ready(r, k) && addr in r.t.h.core.callers[k].pending && f !in r.t.h.core.finalizers
    ensures Helps(r, k, R.Other(T.Hook(H.AttemptDisconnect(k, addr, f))))
  {
    var core := r.t.h.core;
    Effect(r, H.AttemptDisconnect(k, addr, f));
    AttemptCallers(core, k, addr, f);
    ArmedWork(r.t.h.disc, f, r.disconnects, r.t.h.od.queue);
  }

  // ---- scheduling tasks -------------------------------------------------------------------

  /** With the channel empty and untouched, every trigger it accepted has been replied to. */
  lemma NoTaskWaits(t: T.State, id: ConnId)
    requires H.OnConnects(t.h) && H.ChanInv(t.h.oc) && T.ConnectsMatch(t.connects, t.h.tasks, t.h.oc.processed)
    requires t.h.oc.queue == [] && t.h.oc.dropped == multiset{} && t.h.oc.lost == {}
    requires id in t.h.tasks
    ensures !t.h.tasks[id].stage.Waiting?
  {
    assert H.ItemIds(t.h.oc.queue) == [];
    assert t.h.oc.processed == multiset(t.h.oc.sent);
  }

  lemma FinishedWork(tasks: map<ConnId, H.Task>, sends: R.Sends<ConnId>, queue: seq<H.Item>, id: ConnId)
    requires id in tasks && !tasks[id].stage.ToTrigger?
    ensures ConnectWork(tasks - {id}, sends, queue) < ConnectWork(tasks, sends, queue)
  {
    assert (tasks - {id}).Keys == tasks.Keys - {id};
    assert Unsent(tasks - {id}) == Unsent(tasks);
  }

  lemma PermitHelps(r: R.State, k: CallerId, id: ConnId)
    requires Ready(r, k) && id in r.t.h.tasks && r.t.h.tasks[id].stage.ToTrigger?
    requires r.connects.permits == {} && r.t.h.oc.queue == []
    ensures Helps(r, k, R.TakeConnectPermit(id))
  {
  }

  lemma FinishingHelps(r: R.State, k: CallerId, id: ConnId)
    requires Ready(r, k) && id in r.t.h.tasks && r.t.h.tasks[id].stage.Replied?
    ensures Helps(r, k, R.Other(T.Hook(H.FinishSched(id))))
  {
    Effect(r, H.FinishSched(id));
    FinishedWork(r.t.h.tasks, r.connects, r.t.h.oc.queue, id);
  }

  // ---- disconnects ------------------------------------------------------------------------

  lemma NoDisconnectWaits(t: T.State, f: FinalizerId)
    requires H.OnDisconnects(t.h) && H.ChanInv(t.h.od)
    requires T.DisconnectsMatch(t.disconnects, t.h.core.finalizers, t.h.disc, t.h.od.processed)
    requires t.h.od.queue == [] && t.h.od.dropped == multiset{} && t.h.od.lost == {}
    requires f in t.h.disc
    ensures !t.h.disc[f].Waiting?
  {
    assert H.ItemIds(t.h.od.queue) == [];
    assert t.h.od.processed == multiset(t.h.od.sent);
  }

  lemma AttachedWork(disc: map<FinalizerId, H.Stage>, sends: R.Sends<FinalizerId>, queue: seq<H.Item>, f: FinalizerId)
    requires f in disc && disc[f].Replied?
    ensures DisconnectWork(disc[f := H.Running], sends, queue) < DisconnectWork(disc, sends, queue)
  {
    var disc' := disc[f := H.Running];
    assert disc'.Keys == disc.Keys;
    assert UnsentDisc(disc') == UnsentDisc(disc);
    assert Unhooked(disc') == Unhooked(disc) - {f};
  }

  lemma EndedWork(disc: map<FinalizerId, H.Stage>, sends: R.Sends<FinalizerId>, queue: seq<H.Item>, f: FinalizerId)
    requires f in disc && disc[f].Running?
    ensures DisconnectWork(disc - {f}, sends, queue) < DisconnectWork(disc, sends, queue)
  {
    assert (disc - {f}).Keys == disc.Keys - {f};
    assert UnsentDisc(disc - {f}) == UnsentDisc(disc);
    assert Unhooked(disc - {f}) == Unhooked(disc);
  }

  lemma DisconnectPermitHelps(r: R.State, k: CallerId, f: FinalizerId)
    requires Ready(r, k) && f in r.t.h.disc && r.t.h.disc[f].ToTrigger?
    requires r.disconnects.permits == {} && r.t.h.od.queue == []
    ensures Helps(r, k, R.TakeDisconnectPermit(f))
  {
  }

  lemma AttachingHelps(r: R.State, k: CallerId, f: FinalizerId)
    requires Ready(r, k) && f in r.t.h.disc && r.t.h.disc[f].Replied?
    ensures Helps(r, k, R.Other(T.Hook(H.AttachOnDisconnect(f))))
  {
    Effect(r, H.AttachOnDisconnect(f));
    AttachedWork(r.t.h.disc, r.disconnects, r.t.h.od.queue, f);
  }

  lemma EndingHelps(r: R.State, k: CallerId, f: FinalizerId)
    requires Ready(r, k) && f in r.t.h.disc && r.t.h.disc[f].Running?
    ensures Helps(r, k, R.Other(T.Hook(H.EndDisconnect(f))))
  {
    Effect(r, H.EndDisconnect(f));
    EndedWork(r.t.h.disc, r.disconnects, r.t.h.od.queue, f);
  }

  // ---- the gates --------------------------------------------------------------------------

  lemma NothingIsActive(core: L.State, k: CallerId)
    requires L.Claims(core) && L.Shutdown(core)
    requires k in core.callers && core.callers[k].pending == {} && core.finalizers == map[]
    ensures core.sh.active == map[]
  {
    L.NobodyLeft(core);
  }

  lemma PassingActiveHelps(r: R.State, k: CallerId)
    requires Ready(r, k) && r.t.h.gates[k].Fanning?
    requires r.t.h.core.callers[k].pending == {} && r.t.h.core.sh.active == map[]
    ensures Helps(r, k, R.Other(T.Hook(H.PassActive(k))))
  {
    Effect(r, H.PassActive(k));
  }

  lemma PassingSchedHelps(r: R.State, k: CallerId)
    requires Ready(r, k) && r.t.h.gates[k].ActiveDrained? && r.t.h.sched == 0
    ensures Helps(r, k, R.Other(T.Hook(H.PassSched(k))))
  {
    Effect(r, H.PassSched(k));
  }

  lemma SignallingHelps(r: R.State, k: CallerId)
    requires Ready(r, k) && r.t.h.gates[k].SchedDrained?
    ensures Helps(r, k, R.Other(T.Hook(H.Signal(k))))
  {
    Effect(r, H.Signal(k));
  }

  // ---- progress ---------------------------------------------------------------------------

  /** No send is under way and nothing is queued. */
  ghost predicate Still(r: R.State) {
    && r.connects == R.Sends({}, {}) && r.disconnects == R.Sends({}, {})
    && r.t.h.oc.queue == [] && r.t.h.od.queue == []
  }

  lemma MovingHelps(r: R.State, k: CallerId) returns (l: R.Label)
    requires Ready(r, k) && R.PermitsInv(r) && !Still(r)
    ensures Helps(r, k, l)
  {
    if r.connects.unwritten != {} || r.disconnects.unwritten != {} {
      l := WritingHelps(r, k);
    } else if id :| id in r.connects.permits {
      l := R.Other(T.Hook(H.SendOnConnect(id)));
      SendingConnectHelps(r, k, id);
    } else if f :| f in r.disconnects.permits {
      l := R.Other(T.Hook(H.SendOnDisconnect(f)));
      SendingDisconnectHelps(r, k, f);
    } else if r.t.h.oc.queue != [] {
      l := R.Other(T.Hook(H.ProcessOnConnect));
      ReceivingConnectHelps(r, k);
    } else {
      l := R.Other(T.Hook(H.ProcessOnDisconnect));
      ReceivingDisconnectHelps(r, k);
    }
  }

  lemma TaskHelps(r: R.State, k: CallerId, id: ConnId) returns (l: R.Label)
    requires Ready(r, k) && Still(r) && id in r.t.h.tasks
    requires r.t.h.tasks[id].stage.ToTrigger? || r.t.h.tasks[id].stage.Replied?
    ensures Helps(r, k, l)
  {
    if r.t.h.tasks[id].stage.ToTrigger? {
      l := R.TakeConnectPermit(id);
      PermitHelps(r, k, id);
    } else {
      l := R.Other(T.Hook(H.FinishSched(id)));
      FinishingHelps(r, k, id);
    }
  }

  lemma DisconnectHelps(r: R.State, k: CallerId, f: FinalizerId) returns (l: R.Label)
    requires Ready(r, k) && Still(r) && f in r.t.h.disc && !r.t.h.disc[f].Waiting?
    ensures Helps(r, k, l)
  {
    match r.t.h.disc[f] {
      case ToTrigger =>
        l := R.TakeDisconnectPermit(f);
        DisconnectPermitHelps(r, k, f);
      case Replied =>
        l := R.Other(T.Hook(H.AttachOnDisconnect(f)));
        AttachingHelps(r, k, f);
      case Running =>
        l := R.Other(T.Hook(H.EndDisconnect(f)));
        EndingHelps(r, k, f);
    }
  }

  lemma GateHelps(r: R.State, k: CallerId) returns (l: R.Label)
    requires Ready(r, k) && r.t.h.core.callers[k].pending == {} && r.t.h.core.sh.active == map[] && r.t.h.sched == 0
    ensures Helps(r, k, l)
  {
    match r.t.h.gates[k] {
      case Fanning =>
        l := R.Other(T.Hook(H.PassActive(k)));
        PassingActiveHelps(r, k);
      case ActiveDrained =>
        l := R.Other(T.Hook(H.PassSched(k)));
        PassingSchedHelps(r, k);
      case SchedDrained =>
        l := R.Other(T.Hook(H.Signal(k)));
        SignallingHelps(r, k);
    }
  }

  /** What is left when nothing moves: nobody waits for a reply, and with nobody left to make
      progress nothing holds the gates. */
  ghost predicate Settled(h: H.State, k: CallerId)
    requires k in h.core.callers
  {
    && (forall id :: id in h.tasks ==> h.tasks[id].stage.ToTrigger? || h.tasks[id].stage.Replied?)
    && (forall f :: f in h.disc ==> !h.disc[f].Waiting?)
    && (h.core.callers[k].pending == {} && h.disc.Keys == {} ==> h.core.sh.active == map[])
    && (h.holders == {} && h.tasks.Keys == {} ==> h.sched == 0)
  }

  lemma StillIsSettled(t: T.State, k: CallerId)
    requires T.Inv(t) && Orderly(t.h) && !t.h.voided && k in t.h.core.callers
    requires t.h.oc.queue == [] && t.h.od.queue == []
    ensures Settled(t.h, k)
  {
    forall id | id in t.h.tasks
      ensures !t.h.tasks[id].stage.Waiting?
    {
      NoTaskWaits(t, id);
    }
    forall f | f in t.h.disc
      ensures !t.h.disc[f].Waiting?
    {
      NoDisconnectWaits(t, f);
    }
    if t.h.core.callers[k].pending == {} && t.h.disc.Keys == {} {
      NothingIsActive(t.h.core, k);
    }
  }

  lemma StillHelps(r: R.State, k: CallerId) returns (l: R.Label)
    requires Ready(r, k) && Still(r) && Settled(r.t.h, k)
    ensures Helps(r, k, l)
  {
    var h := r.t.h;
    if h.holders != {} {
      l := HolderHelps(r, k);
    } else if addr :| addr in h.core.callers[k].pending {
      var f := Above(h.core.finalizers.Keys);
      l := R.Other(T.Hook(H.AttemptDisconnect(k, addr, f)));
      AttemptingHelps(r, k, addr, f);
    } else if id :| id in h.tasks.Keys {
      l := TaskHelps(r, k, id);
    } else if f :| f in h.disc.Keys {
      l := DisconnectHelps(r, k, f);
    } else {
      l := GateHelps(r, k);
    }
  }

  /** While a shutdown winds down there is always a step that brings it closer to the signal. */
  lemma Progress(r: R.State, k: CallerId) returns (l: R.Label)
    requires Winding(r, k)
    ensures Helps(r, k, l)
  {
    WindingIsReady(r, k);
    if Still(r) {
      StillIsSettled(r.t, k);
      l := StillHelps(r, k);
    } else {
      l := MovingHelps(r, k);
    }
  }

  // ---- whole runs -------------------------------------------------------------------------

  lemma {:induction false} CapacityKept(r: R.State, ls: seq<R.Label>)
    ensures R.Exec(r, ls).capacity == r.capacity
    decreases |ls|
  {
    if ls != [] {
      CapacityKept(r, ls[..|ls| - 1]);
    }
  }

  /** Shutdown `k` has its snapshot and the run is not voided; `entered` are the connections that entered. */
  ghost predicate Under(r: R.State, k: CallerId, entered: set<ConnId>) {
    k in r.t.h.core.callers && k in r.t.h.gates && !r.t.h.voided && r.t.h.core.entered == entered
  }

  lemma ProgressStep(r: R.State, k: CallerId) returns (l: R.Label)
    requires Winding(r, k)
    ensures var r' := R.Next(r, l);
      && Under(r', k, r.t.h.core.entered)
      && Work(r, k) > 0 && (r'.t.h.signaled || Work(r', k) < Work(r, k))
  {
    l := Progress(r, k);
    WorkIsPositive(r, k);
    WindingIsReady(r, k);
    R.ShutStep(r, l);
  }

  /** In every run with a snapshot, not voided and not signalled yet, some step lowers the measure or
      gives the signal, and lets no connection in. */
  lemma {:induction false} RunProgress(cfg: L.Config, abortable: bool, capacity: nat, ls: seq<R.Label>, k: CallerId)
    returns (l: R.Label)
    requires capacity > 0
    requires var r := R.Exec(R.Init(cfg, abortable, capacity), ls);
      !r.t.h.signaled && Under(r, k, r.t.h.core.entered)
    ensures var r := R.Exec(R.Init(cfg, abortable, capacity), ls);
      var r' := R.Exec(R.Init(cfg, abortable, capacity), ls + [l]);
      && Under(r', k, r.t.h.core.entered)
      && Work(r, k) > 0 && (r'.t.h.signaled || Work(r', k) < Work(r, k))
  {
    RunInv(cfg, abortable, capacity, ls);
    CapacityKept(R.Init(cfg, abortable, capacity), ls);
    l := ProgressStep(R.Exec(R.Init(cfg, abortable, capacity), ls), k);
    R.ExecSnoc(R.Init(cfg, abortable, capacity), ls, l);
  }

  /** The run can be prolonged to the signal, step by step. */
  lemma {:induction false} Completed(cfg: L.Config, abortable: bool, capacity: nat, ls: seq<R.Label>, k: CallerId,
                                     entered: set<ConnId>, bound: nat)
    returns (all: seq<R.Label>)
    requires capacity > 0
    requires var r := R.Exec(R.Init(cfg, abortable, capacity), ls);
      Under(r, k, entered) && (r.t.h.signaled || Work(r, k) <= bound)
    ensures ls <= all
    ensures var end := R.Exec(R.Init(cfg, abortable, capacity), all); end.t.h.signaled && Under(end, k, entered)
    decreases bound
  {
    if R.Exec(R.Init(cfg, abortable, capacity), ls).t.h.signaled {
      all := ls;
    } else {
      var l := RunProgress(cfg, abortable, capacity, ls, k);
      all := Completed(cfg, abortable, capacity, ls + [l], k, entered, bound - 1);
    }
  }

  /** The handlers are signalled in a run that is not voided, and the hooks of exactly these
      connections are paired. */
  ghost predicate Served(h: H.State, entered: set<ConnId>) {
    h.signaled && !h.voided && H.Paired(h) && h.core.entered == entered
  }

  /** Some prolongation of the run gets there. */
  ghost predicate CanBeServed(start: R.State, ls: seq<R.Label>, entered: set<ConnId>) {
    exists all :: ls <= all && Served(R.Exec(start, all).t.h, entered)
  }

  /** From every state with a snapshot that is not voided, the shutdown can be carried to its signal,
      with every hook paired and no further connection. */
  lemma {:induction false} SnapshotsCanBeServed(cfg: L.Config, abortable: bool, capacity: nat, ls: seq<R.Label>,
                                                k: CallerId)
    requires capacity > 0
    requires var h := R.Exec(R.Init(cfg, abortable, capacity), ls).t.h; k in h.core.callers && !h.voided
    ensures var start := R.Init(cfg, abortable, capacity);
      CanBeServed(start, ls, R.Exec(start, ls).t.h.core.entered)
  {
    var r := R.Exec(R.Init(cfg, abortable, capacity), ls);
    RunInv(cfg, abortable, capacity, ls);
    WorkIsPositive(r, k);
    var all := Completed(cfg, abortable, capacity, ls, k, r.t.h.core.entered, Work(r, k));
    R.HooksPair(cfg, abortable, capacity, all);
  }

  // ---- from any state ---------------------------------------------------------------------

  lemma AddingEnds(r: R.State)
    requires R.AddingInv(r) && r.adding.Some?
    ensures var r' := R.Next(r, R.Insert); r'.adding.None? && r'.t == R.Abs(r)
  {
  }

  lemma Begins(r: R.State)
    requires r.adding.None?
    ensures var r' := R.Next(r, R.Other(T.Hook(H.Core(L.Begin))));
      r'.adding.None? && r'.t.h == r.t.h.(core := r.t.h.core.(sh := r.t.h.core.sh.(underway := true)))
  {
  }

  lemma TakesSnapshot(r: R.State)
    requires r.adding.None? && r.t.h.core.sh.underway && r.t.h.core.callers == map[] && r.t.h.gates == map[]
    requires !r.t.h.voided
    ensures Under(R.Next(r, R.Other(T.Hook(H.TakeSnapshot(0)))), 0, r.t.h.core.entered)
  {
    Effect(r, H.TakeSnapshot(0));
  }

  /** A run without a snapshot can be given one, once whoever is inside `add` is out of it. */
  lemma {:induction false} ShutsDown(cfg: L.Config, abortable: bool, capacity: nat, ls: seq<R.Label>)
    returns (more: seq<R.Label>)
    requires var r := R.Exec(R.Init(cfg, abortable, capacity), ls);
      r.adding.None? && r.t.h.core.callers == map[] && r.t.h.gates == map[] && !r.t.h.voided
    ensures ls <= more
    ensures Under(R.Exec(R.Init(cfg, abortable, capacity), more), 0,
                  R.Exec(R.Init(cfg, abortable, capacity), ls).t.h.core.entered)
  {
    var start, r := R.Init(cfg, abortable, capacity), R.Exec(R.Init(cfg, abortable, capacity), ls);
    var begin, snapshot := R.Other(T.Hook(H.Core(L.Begin))), R.Other(T.Hook(H.TakeSnapshot(0)));
    Begins(r);
    TakesSnapshot(R.Next(r, begin));
    R.ExecSnoc(start, ls, begin);
    R.ExecSnoc(start, ls + [begin], snapshot);
    more := ls + [begin] + [snapshot];
  }

  lemma {:induction false} LeavesAdd(cfg: L.Config, abortable: bool, capacity: nat, ls: seq<R.Label>)
    returns (more: seq<R.Label>)
    requires !R.Exec(R.Init(cfg, abortable, capacity), ls).t.h.voided
    ensures ls <= more
    ensures var r, r' := R.Exec(R.Init(cfg, abortable, capacity), ls), R.Exec(R.Init(cfg, abortable, capacity), more);
      r'.adding.None? && r'.t.h.core.entered == R.Abs(r).h.core.entered && !r'.t.h.voided
  {
    var r := R.Exec(R.Init(cfg, abortable, capacity), ls);
    more := ls;
    if r.adding.Some? {
      R.AddingRun(cfg, abortable, capacity, ls);
      AddingEnds(r);
      R.ExecSnoc(R.Init(cfg, abortable, capacity), ls, R.Insert);
      more := ls + [R.Insert];
    }
  }

  lemma {:induction false} ServedOutside(cfg: L.Config, abortable: bool, capacity: nat, ls: seq<R.Label>)
    requires capacity > 0
    requires var r := R.Exec(R.Init(cfg, abortable, capacity), ls); r.adding.None? && !r.t.h.voided
    ensures var start := R.Init(cfg, abortable, capacity);
      CanBeServed(start, ls, R.Exec(start, ls).t.h.core.entered)
  {
    var r := R.Exec(R.Init(cfg, abortable, capacity), ls);
    if k :| k in r.t.h.core.callers {
      SnapshotsCanBeServed(cfg, abortable, capacity, ls, k);
    } else {
      OrderlyRun(cfg, abortable, capacity, ls);
      var more := ShutsDown(cfg, abortable, capacity, ls);
      SnapshotsCanBeServed(cfg, abortable, capacity, more, 0);
    }
  }

  lemma VoidedStep(r: R.State, l: R.Label)
    requires r.t.h.voided
    ensures R.Next(r, l).t.h.voided
  {
    if R.Enabled(r, l) {
      if l.Other? {
        T.Projects(r.t, l.l);
        assert R.Apply(r, l).t == T.Next(r.t, l.l);
      } else {
        assert R.Apply(r, l).t.h.voided;
      }
    }
  }

  lemma {:induction false} VoidedForGood(start: R.State, ls: seq<R.Label>, all: seq<R.Label>)
    requires ls <= all && R.Exec(start, ls).t.h.voided
    ensures R.Exec(start, all).t.h.voided
    decreases |all|
  {
    if |ls| == |all| {
      assert ls == all;
    } else {
      VoidedForGood(start, ls, all[..|all| - 1]);
      VoidedStep(R.Exec(start, all[..|all| - 1]), all[|all| - 1]);
    }
  }

  /** A run can be carried to the signal of a shutdown, with the hooks of exactly the connections that
      entered or are being inserted paired, if and only if it is not voided. */
  lemma {:induction false} ShutdownCanFinishUnlessVoided(cfg: L.Config, abortable: bool, capacity: nat,
                                                         ls: seq<R.Label>)
    requires capacity > 0
    ensures var start := R.Init(cfg, abortable, capacity);
      CanBeServed(start, ls, R.Abs(R.Exec(start, ls)).h.core.entered) <==> !R.Exec(start, ls).t.h.voided
  {
    var start := R.Init(cfg, abortable, capacity);
    if R.Exec(start, ls).t.h.voided {
      forall all | ls <= all
        ensures R.Exec(start, all).t.h.voided
      {
        VoidedForGood(start, ls, all);
      }
    } else {
      var more := LeavesAdd(cfg, abortable, capacity, ls);
      ServedOutside(cfg, abortable, capacity, more);
    }
  }

  /** So the pairing guarantee is not empty: a connection enters, and a shutdown serves it. */
  lemma {:induction false} AConnectionIsServed()
    ensures exists all :: Served(R.Exec(R.Init(T.SMALL, true, 1), all).t.h, {0})
  {
    R.EntersAndLeaves();
    ServedOutside(T.SMALL, true, 1, R.Enters());
  }
}
