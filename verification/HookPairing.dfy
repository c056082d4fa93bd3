/**
 The `OnConnect` and `OnDisconnect` hooks, and the two-phase shutdown that protects them, as a
 layer over the connection lifecycle.

 The layer adds the scheduling guards and their counter, the detached scheduling tasks, the
 progress of every disconnect, the two handler channels, and the gates a shutdown passes before
 it signals the handlers. Its steps do to the lifecycle what lifecycle steps do, only under the
 extra conditions the hooks impose. Both hooks are enabled from the start.

 A run is `voided` once a disconnect future is dropped, a shutdown future is dropped, or a
 shutdown's drain deadline expires; the library withdraws the pairing guarantee on those paths.
 */
module HookPairing {
  import opened Util
  import opened Net
  import L = Lifecycle

  type SetupId = L.SetupId
  type ConnId = L.ConnId
  type FinalizerId = L.FinalizerId
  type CallerId = L.CallerId

  /** Where a trigger is: still to be sent, accepted and awaiting the handler's reply, replied,
      or (for a disconnect) past the hook. */
  datatype Stage = ToTrigger | Waiting | Replied | Running

  /** A scheduling task; it owns a scheduling guard. */
  datatype Task = Task(addr: SocketAddr, stage: Stage)

  /** A queued trigger: whom to reply to, and the connection it is about. */
  datatype Item = Item(key: nat, id: ConnId)

  /** A handler channel with its history: the ids accepted, processed, dropped by an aborted
      handler, and lost in a channel that was already closed. */
  datatype Chan = Chan(
    queue: seq<Item>,
    closed: bool,
    sent: set<ConnId>,
    processed: multiset<ConnId>,
    dropped: multiset<ConnId>,
    lost: set<ConnId>
  )

  /** How far a shutdown has come after its snapshot. */
  datatype Gate = Fanning | ActiveDrained | SchedDrained

  datatype State = State(
    core: L.State,
    holders: set<SetupId>,
    sched: int,
    tasks: map<ConnId, Task>,
    oc: Chan,
    disc: map<FinalizerId, Stage>,
    od: Chan,
    gates: map<CallerId, Gate>,
    signaled: bool,
    doomed: bool,
    voided: bool
  )

  datatype Label =
    | Core(l: L.Label)
    | SchedStart(s: SetupId)
    | SchedAbort(s: SetupId)
    | SpawnSched(s: SetupId)
    | SendOnConnect(id: ConnId)
    | ProcessOnConnect
    | GiveUpOnConnect(id: ConnId)
    | FinishSched(id: ConnId)
    | ClaimDisconnect(f: FinalizerId, addr: SocketAddr, want: Option<ConnId>)
    | AttemptDisconnect(k: CallerId, addr: SocketAddr, f: FinalizerId)
    | SendOnDisconnect(f: FinalizerId)
    | ProcessOnDisconnect
    | GiveUpOnDisconnect(f: FinalizerId)
    | AttachOnDisconnect(f: FinalizerId)
    | EndDisconnect(f: FinalizerId)
    | CancelDisconnect(f: FinalizerId)
    | TakeSnapshot(k: CallerId)
    | PassActive(k: CallerId)
    | PassSched(k: CallerId)
    | Signal(k: CallerId)
    | CloseOnConnect
    | CloseOnDisconnect
    | HardAbort(k: CallerId)
    | DropOnConnect
    | DropOnDisconnect

  const EMPTY_CHAN: Chan := Chan([], false, {}, multiset{}, multiset{}, {})

  function Init(cfg: L.Config): State {
    State(L.Init(cfg), {}, 0, map[], EMPTY_CHAN, map[], EMPTY_CHAN, map[], false, false, false)
  }

  // ---- channels --------------------------------------------------------------------------

  function Send(ch: Chan, item: Item): Chan {
    if ch.closed then ch.(lost := ch.lost + {item.id})
    else ch.(queue := ch.queue + [item], sent := ch.sent + {item.id})
  }

  function Pop(ch: Chan): Chan
    requires ch.queue != []
  {
    ch.(queue := ch.queue[1..], processed := ch.processed + multiset{ch.queue[0].id})
  }

  function ItemIds(queue: seq<Item>): seq<ConnId> {
    seq(|queue|, i requires 0 <= i < |queue| => queue[i].id)
  }

  function Abort(ch: Chan): Chan {
    ch.(queue := [], closed := true, dropped := ch.dropped + multiset(ItemIds(ch.queue)))
  }

  // ---- the steps -------------------------------------------------------------------------

  /** The lifecycle steps that the hooks leave alone, with the conditions that come from the
      scheduling guard: no await lies between its creation and `add`, nor between `add` and the
      spawn of the scheduling task, so a setup cannot be cancelled there. */
  predicate CoreAllowed(h: State, l: L.Label) {
    match l
    case AcquirePermit(_, _) => true
    case Reserve(_) => true
    case NewConnection(_, _) => true
    case Begin => true
    case Add(s) => s in h.holders
    case DropGuard(s) => s !in h.holders || (s in h.core.setups && !h.core.setups[s].phase.Building?)
    case ReleasePermit(s) => s !in h.holders
    case _ => false
  }

  predicate Enabled(h: State, l: Label) {
    match l
    case Core(c) => L.Enabled(h.core, c) && CoreAllowed(h, c)
    case SchedStart(s) => s in h.core.setups && h.core.setups[s].phase.Building? && s !in h.holders
    case SchedAbort(s) => s in h.core.setups && h.core.setups[s].phase.Done? && s in h.holders
    case SpawnSched(s) => s in h.core.setups && h.core.setups[s].phase.Live? && s in h.holders
    case SendOnConnect(id) => id in h.tasks && h.tasks[id].stage.ToTrigger?
    case ProcessOnConnect => h.oc.queue != []
    case GiveUpOnConnect(id) => id in h.tasks && h.tasks[id].stage.Waiting? && h.oc.closed
    case FinishSched(id) => id in h.tasks && h.tasks[id].stage.Replied?
    case ClaimDisconnect(f, addr, want) => L.Enabled(h.core, L.Claim(f, addr, want))
    case AttemptDisconnect(k, addr, f) => L.Enabled(h.core, L.Attempt(k, addr, f))
    case SendOnDisconnect(f) => f in h.disc && h.disc[f].ToTrigger? && f in h.core.finalizers
    case ProcessOnDisconnect => h.od.queue != []
    case GiveUpOnDisconnect(f) => f in h.disc && h.disc[f].Waiting? && h.od.closed
    case AttachOnDisconnect(f) => f in h.disc && h.disc[f].Replied? && f in h.core.finalizers
    case EndDisconnect(f) => f in h.disc && h.disc[f].Running? && f in h.core.finalizers
    case CancelDisconnect(f) => f in h.disc && f in h.core.finalizers
    case TakeSnapshot(k) => L.Enabled(h.core, L.Snapshot(k)) && k !in h.gates
    case PassActive(k) =>
      k in h.gates && h.gates[k].Fanning? && k in h.core.callers && h.core.callers[k].pending == {}
          && h.core.sh.active == map[]
    case PassSched(k) => k in h.gates && h.gates[k].ActiveDrained? && h.sched == 0
    case Signal(k) => k in h.gates && h.gates[k].SchedDrained?
    case CloseOnConnect => h.signaled
    case CloseOnDisconnect => h.signaled
    case HardAbort(k) => k in h.core.callers
    case DropOnConnect => h.doomed
    case DropOnDisconnect => h.doomed
  }

  /** A claim attempt; a new finalizer starts a disconnect. */
  function Started(disc: map<FinalizerId, Stage>, core': L.State, f: FinalizerId): map<FinalizerId, Stage> {
    if f in core'.finalizers then disc[f := ToTrigger] else disc
  }

  function ReplyTo(h: State, item: Item): map<FinalizerId, Stage> {
    if item.key in h.disc && h.disc[item.key].Waiting? && item.key in h.core.finalizers
        && h.core.finalizers[item.key].id == item.id
    then h.disc[item.key := Replied] else h.disc
  }

  function CoreAfter(h: State, l: Label): L.State
    requires Enabled(h, l)
  {
    match l
    case Core(c) => L.Apply(h.core, c)
    case ClaimDisconnect(f, addr, want) => L.ClaimStep(h.core, f, addr, want)
    case AttemptDisconnect(k, addr, f) => L.AttemptStep(h.core, k, addr, f)
    case EndDisconnect(f) => L.FinalizeStep(h.core, f)
    case CancelDisconnect(f) => L.FinalizeStep(h.core, f)
    case TakeSnapshot(k) => L.SnapshotStep(h.core, k)
    case HardAbort(k) => h.core.(callers := h.core.callers - {k})
    case _ => h.core
  }

  /** The scheduling guards that setups hold: one is taken before `add`, and given up, or handed to
      the scheduling task, after it. */
  function HoldersAfter(h: State, l: Label): set<SetupId> {
    match l
    case SchedStart(s) => h.holders + {s}
    case SchedAbort(s) => h.holders - {s}
    case SpawnSched(s) => h.holders - {s}
    case _ => h.holders
  }

  function TasksAfter(h: State, l: Label): map<ConnId, Task>
    requires Enabled(h, l)
  {
    match l
    case SpawnSched(s) => h.tasks[h.core.setups[s].phase.id := Task(h.core.setups[s].addr, ToTrigger)]
    case SendOnConnect(id) => h.tasks[id := h.tasks[id].(stage := if h.oc.closed then Replied else Waiting)]
    case ProcessOnConnect =>
      var id := h.oc.queue[0].id;
      if id in h.tasks && h.tasks[id].stage.Waiting? then h.tasks[id := h.tasks[id].(stage := Replied)] else h.tasks
    case GiveUpOnConnect(id) => h.tasks[id := h.tasks[id].(stage := Replied)]
    case FinishSched(id) => h.tasks - {id}
    case _ => h.tasks
  }

  function OcAfter(h: State, l: Label): Chan
    requires Enabled(h, l)
  {
    match l
    case SendOnConnect(id) => Send(h.oc, Item(id, id))
    case ProcessOnConnect => Pop(h.oc)
    case CloseOnConnect => h.oc.(closed := true)
    case DropOnConnect => Abort(h.oc)
    case _ => h.oc
  }

  function DiscAfter(h: State, l: Label): map<FinalizerId, Stage>
    requires Enabled(h, l)
  {
    match l
    case ClaimDisconnect(f, addr, want) => Started(h.disc, L.ClaimStep(h.core, f, addr, want), f)
    case AttemptDisconnect(k, addr, f) => Started(h.disc, L.AttemptStep(h.core, k, addr, f), f)
    case SendOnDisconnect(f) => h.disc[f := if h.od.closed then Running else Waiting]
    case ProcessOnDisconnect => ReplyTo(h, h.od.queue[0])
    case GiveUpOnDisconnect(f) => h.disc[f := Running]
    case AttachOnDisconnect(f) => h.disc[f := Running]
    case EndDisconnect(f) => h.disc - {f}
    case CancelDisconnect(f) => h.disc - {f}
    case _ => h.disc
  }

  function OdAfter(h: State, l: Label): Chan
    requires Enabled(h, l)
  {
    match l
    case SendOnDisconnect(f) => Send(h.od, Item(f, h.core.finalizers[f].id))
    case ProcessOnDisconnect => Pop(h.od)
    case CloseOnDisconnect => h.od.(closed := true)
    case DropOnDisconnect => Abort(h.od)
    case _ => h.od
  }

  function GatesAfter(h: State, l: Label): map<CallerId, Gate> {
    match l
    case TakeSnapshot(k) => h.gates[k := Fanning]
    case PassActive(k) => h.gates[k := ActiveDrained]
    case PassSched(k) => h.gates[k := SchedDrained]
    case HardAbort(k) => h.gates - {k}
    case _ => h.gates
  }

  function Apply(h: State, l: Label): State
    requires Enabled(h, l)
  {
    State(
      CoreAfter(h, l),
      HoldersAfter(h, l),
      if l.SchedStart? then h.sched + 1 else if l.SchedAbort? || l.FinishSched? then h.sched - 1 else h.sched,
      TasksAfter(h, l),
      OcAfter(h, l),
      DiscAfter(h, l),
      OdAfter(h, l),
      GatesAfter(h, l),
      h.signaled || l.Signal?,
      h.doomed || l.HardAbort?,
      h.voided || l.CancelDisconnect? || l.HardAbort?)
  }

  function Next(h: State, l: Label): State {
    if Enabled(h, l) then Apply(h, l) else h
  }

  // ---- the invariant ---------------------------------------------------------------------

  /** The connections past `add` whose setup has yet to hand its scheduling guard to a task. */
  ghost function Unspawned(setups: map<SetupId, L.Setup>, holders: set<SetupId>): set<ConnId> {
    set s | s in holders && s in setups && (setups[s].phase.Added? || setups[s].phase.Live?) :: setups[s].phase.id
  }

  ghost function FinalizerIds(finalizers: map<FinalizerId, L.Finalizer>): set<ConnId> {
    set f | f in finalizers :: finalizers[f].id
  }

  /** The counter counts the guards, held by setups and by tasks. */
  ghost predicate SchedInv(setups: map<SetupId, L.Setup>, holders: set<SetupId>, tasks: set<ConnId>, sched: int) {
    && holders <= setups.Keys
    && (forall s :: s in holders ==> !setups[s].phase.Permitted? && !setups[s].phase.Reserved?)
    && sched == |holders| + |tasks|
  }

  /** Every connection that entered is on its way to its one `OnConnect` trigger, or past it. */
  ghost predicate OnConnectInv(pending: set<ConnId>, tasks: map<ConnId, Task>, past: set<ConnId>,
                               entered: set<ConnId>) {
    && entered == pending + tasks.Keys + past
    && pending !! tasks.Keys + past
    && (forall id :: id in tasks ==> (tasks[id].stage.ToTrigger? <==> id !in past))
  }

  /** Every live finalizer is on its way to the one `OnDisconnect` trigger of its connection. */
  ghost predicate OnDisconnectInv(finalizers: map<FinalizerId, L.Finalizer>, disc: map<FinalizerId, Stage>,
                                  past: set<ConnId>, removed: set<ConnId>) {
    && disc.Keys == finalizers.Keys
    && (forall f :: f in disc ==> (disc[f].ToTrigger? <==> finalizers[f].id !in past))
    && past <= removed + FinalizerIds(finalizers)
  }

  /** What a channel accepted is queued, processed or dropped, once each. */
  ghost predicate ChanInv(ch: Chan) {
    multiset(ItemIds(ch.queue)) + ch.processed + ch.dropped == multiset(ch.sent)
  }

  ghost predicate Untouched(ch: Chan, signaled: bool) {
    ch.lost == {} && ch.dropped == multiset{} && (ch.closed ==> signaled)
  }

  /** A channel is closed by the signal, or with its queue by an aborted handler. */
  ghost predicate ClosedInv(ch: Chan, signaled: bool) {
    ch.closed ==> ch.queue == [] || signaled
  }

  /** In every run, a queued `OnConnect` trigger has its scheduling task waiting for it. */
  ghost predicate OcQueued(oc: Chan, tasks: map<ConnId, Task>) {
    forall i :: 0 <= i < |oc.queue| ==> oc.queue[i].id in tasks && tasks[oc.queue[i].id].stage.Waiting?
  }

  /** A queued `OnDisconnect` trigger has its disconnect waiting for it. */
  ghost predicate Awaited(item: Item, finalizers: map<FinalizerId, L.Finalizer>, disc: map<FinalizerId, Stage>) {
    && item.key in finalizers && finalizers[item.key].id == item.id
    && item.key in disc && disc[item.key].Waiting?
  }

  /** In every run, a queued `OnDisconnect` trigger is awaited, or its connection is gone. In one
      that is not voided it is awaited, and whoever is gone has had its trigger accepted. */
  ghost predicate OdKept(voided: bool, od: Chan, signaled: bool, finalizers: map<FinalizerId, L.Finalizer>,
                         disc: map<FinalizerId, Stage>, removed: set<ConnId>) {
    && (forall i :: 0 <= i < |od.queue| ==> od.queue[i].id in removed || Awaited(od.queue[i], finalizers, disc))
    && (!voided ==>
          && Untouched(od, signaled)
          && (forall i :: 0 <= i < |od.queue| ==> Awaited(od.queue[i], finalizers, disc))
          && removed <= od.sent)
  }

  /** Nothing is left that could still send an `OnConnect` trigger, or need one. */
  ghost predicate Quiet(sh: L.Shared, pending: set<ConnId>, tasks: set<ConnId>) {
    sh.underway && sh.active == map[] && pending == {} && tasks == {}
  }

  ghost predicate GatesInv(gates: map<CallerId, Gate>, signaled: bool, sh: L.Shared, pending: set<ConnId>,
                           tasks: set<ConnId>) {
    && (forall k :: k in gates && !gates[k].Fanning? ==> sh.underway && sh.active == map[])
    && (forall k :: k in gates && gates[k].SchedDrained? ==> Quiet(sh, pending, tasks))
    && (signaled ==> Quiet(sh, pending, tasks))
  }

  ghost function Pending(h: State): set<ConnId> { Unspawned(h.core.setups, h.holders) }

  ghost predicate Sched(h: State) { SchedInv(h.core.setups, h.holders, h.tasks.Keys, h.sched) }
  ghost predicate OnConnects(h: State) { OnConnectInv(Pending(h), h.tasks, h.oc.sent + h.oc.lost, h.core.entered) }
  ghost predicate OnDisconnects(h: State) {
    OnDisconnectInv(h.core.finalizers, h.disc, h.od.sent + h.od.lost, h.core.removed)
  }
  ghost predicate Gates(h: State) { GatesInv(h.gates, h.signaled, h.core.sh, Pending(h), h.tasks.Keys) }
  ghost predicate Chans(h: State) {
    && ChanInv(h.oc) && ChanInv(h.od)
    && ClosedInv(h.oc, h.signaled) && ClosedInv(h.od, h.signaled)
    && OcQueued(h.oc, h.tasks)
    && (!h.voided ==> Untouched(h.oc, h.signaled))
    && OdKept(h.voided, h.od, h.signaled, h.core.finalizers, h.disc, h.core.removed)
    && (h.doomed ==> h.voided)
  }

  ghost predicate Hooks(h: State) {
    Sched(h) && OnConnects(h) && OnDisconnects(h) && Gates(h) && Chans(h)
  }

  ghost predicate Inv(h: State) {
    L.Inv(h.core) && Hooks(h)
  }

  lemma InitInv(cfg: L.Config)
    ensures Inv(Init(cfg))
  {
    L.InitInv(cfg);
    assert Unspawned(map[], {}) == {};
    assert ItemIds([]) == [];
  }

  // ---- channels --------------------------------------------------------------------------

  lemma SendInv(ch: Chan, item: Item)
    requires ChanInv(ch) && item.id !in ch.sent
    ensures ChanInv(Send(ch, item))
    ensures Send(ch, item).sent + Send(ch, item).lost == ch.sent + ch.lost + {item.id}
  {
    assert ItemIds(ch.queue + [item]) == ItemIds(ch.queue) + [item.id];
    assert multiset(ch.sent + {item.id}) == multiset(ch.sent) + multiset{item.id};
  }

  lemma PopInv(ch: Chan)
    requires ChanInv(ch) && ch.queue != []
    ensures ChanInv(Pop(ch))
    ensures forall i :: 0 < i < |ch.queue| ==> ch.queue[i].id != ch.queue[0].id
  {
    var rest := ItemIds(ch.queue[1..]);
    var id := ch.queue[0].id;
    assert ItemIds(ch.queue) == [id] + rest;
    assert multiset(ch.sent)[id] <= 1;
    assert id !in multiset(rest);
    forall i | 0 < i < |ch.queue|
      ensures ch.queue[i].id != id
    {
      assert rest[i - 1] == ch.queue[i].id;
      assert rest[i - 1] in multiset(rest);
    }
  }

  lemma AbortInv(ch: Chan)
    requires ChanInv(ch)
    ensures ChanInv(Abort(ch))
  {
    assert ItemIds([]) == [];
  }

  // ---- gates -----------------------------------------------------------------------------

  lemma GatesFrame(gates: map<CallerId, Gate>, signaled: bool, sh: L.Shared, sh': L.Shared, pending: set<ConnId>,
                   tasks: set<ConnId>)
    requires GatesInv(gates, signaled, sh, pending, tasks)
    requires sh.underway ==> sh'.underway && (sh.active == map[] ==> sh'.active == map[])
    ensures GatesInv(gates, signaled, sh', pending, tasks)
  {
  }

  /** While something is pending no shutdown is past its second gate, so nothing there can break. */
  lemma GatesBusy(gates: map<CallerId, Gate>, signaled: bool, sh: L.Shared, pending: set<ConnId>, tasks: set<ConnId>,
                  pending': set<ConnId>, tasks': set<ConnId>)
    requires GatesInv(gates, signaled, sh, pending, tasks) && (pending != {} || tasks != {})
    ensures GatesInv(gates, signaled, sh, pending', tasks')
    ensures !signaled
  {
  }

  // ---- lifecycle steps -------------------------------------------------------------------

  predicate Plain(c: L.Label) {
    c.AcquirePermit? || c.Reserve? || c.NewConnection? || c.Begin? || c.Add? || c.DropGuard? || c.ReleasePermit?
  }

  lemma PlainFrame(core: L.State, c: L.Label)
    requires L.Enabled(core, c) && Plain(c) && (c.Add? ==> core.sh.underway)
    ensures var core' := L.Apply(core, c);
      && core'.finalizers == core.finalizers && core'.removed == core.removed && core'.entered == core.entered
      && core'.sh.active == core.sh.active && (core.sh.underway ==> core'.sh.underway)
  {
  }

  lemma PlainHolders(core: L.State, c: L.Label, holders: set<SetupId>, tasks: set<ConnId>, sched: int)
    requires L.Enabled(core, c) && Plain(c) && (c.Add? ==> core.sh.underway)
    requires SchedInv(core.setups, holders, tasks, sched)
    requires c.ReleasePermit? ==> c.s !in holders
    ensures var core' := L.Apply(core, c);
      SchedInv(core'.setups, holders, tasks, sched)
          && Unspawned(core'.setups, holders) == Unspawned(core.setups, holders)
  {
  }

  lemma CoreEffect(h: State, c: L.Label)
    requires Enabled(h, Core(c))
    ensures Apply(h, Core(c)) == h.(core := L.Apply(h.core, c))
  {
  }

  lemma CoreStep(h: State, c: L.Label)
    requires Hooks(h) && Enabled(h, Core(c)) && (c.Add? ==> h.core.sh.underway)
    ensures Hooks(h.(core := L.Apply(h.core, c)))
  {
    PlainFrame(h.core, c);
    PlainHolders(h.core, c, h.holders, h.tasks.Keys, h.sched);
    GatesFrame(h.gates, h.signaled, h.core.sh, L.Apply(h.core, c).sh, Pending(h), h.tasks.Keys);
  }

  lemma EnterUnspawned(core: L.State, s: SetupId, holders: set<SetupId>)
    requires s in holders && s in core.setups && core.setups[s].phase.Building? && !core.sh.underway
    ensures var core' := L.AddStep(core, s); var id := core.setups[s].phase.id;
      && Unspawned(core'.setups, holders) == Unspawned(core.setups, holders) + {id}
      && core'.finalizers == core.finalizers && core'.removed == core.removed && core'.entered == core.entered + {id}
  {
    var id := core.setups[s].phase.id;
    var setups' := L.AddStep(core, s).setups;
    assert setups'[s].phase.id == id;
    forall i | i in Unspawned(core.setups, holders)
      ensures i in Unspawned(setups', holders)
    {
      var t :| t in holders && t in core.setups && (core.setups[t].phase.Added? || core.setups[t].phase.Live?)
          && core.setups[t].phase.id == i;
      assert setups'[t] == core.setups[t];
    }
  }

  lemma EnterSched(core: L.State, s: SetupId, holders: set<SetupId>, tasks: set<ConnId>, sched: int)
    requires SchedInv(core.setups, holders, tasks, sched)
    requires s in core.setups && core.setups[s].phase.Building?
    ensures SchedInv(L.AddStep(core, s).setups, holders, tasks, sched)
  {
  }

  lemma EnterGates(gates: map<CallerId, Gate>, signaled: bool, sh: L.Shared, pending: set<ConnId>, tasks: set<ConnId>,
                   sh': L.Shared, pending': set<ConnId>)
    requires GatesInv(gates, signaled, sh, pending, tasks) && !sh.underway
    ensures GatesInv(gates, signaled, sh', pending', tasks)
  {
  }

  lemma EnteredInv(pending: set<ConnId>, tasks: map<ConnId, Task>, past: set<ConnId>, entered: set<ConnId>, id: ConnId)
    requires OnConnectInv(pending, tasks, past, entered) && id !in entered
    ensures OnConnectInv(pending + {id}, tasks, past, entered + {id})
  {
  }

  lemma EnterStep(h: State, s: SetupId)
    requires Hooks(h) && Enabled(h, Core(L.Add(s))) && !h.core.sh.underway
    requires h.core.setups[s].phase.id !in h.core.entered
    ensures Hooks(h.(core := L.AddStep(h.core, s)))
  {
    EnterUnspawned(h.core, s, h.holders);
    EnterSched(h.core, s, h.holders, h.tasks.Keys, h.sched);
    EnteredInv(Pending(h), h.tasks, h.oc.sent + h.oc.lost, h.core.entered, h.core.setups[s].phase.id);
    var h' := h.(core := L.AddStep(h.core, s));
    EnterGates(h.gates, h.signaled, h.core.sh, Pending(h), h.tasks.Keys, h'.core.sh, Pending(h'));
  }

  lemma BuildingHasNotEntered(core: L.State, s: SetupId)
    requires L.SetupIds(core) && L.Enabled(core, L.Add(s))
    ensures core.setups[s].phase.id !in core.entered
  {
  }

  lemma AnyCoreStep(h: State, c: L.Label)
    requires Hooks(h) && L.SetupIds(h.core) && Enabled(h, Core(c))
    ensures Hooks(Apply(h, Core(c)))
  {
    CoreEffect(h, c);
    if c.Add? && !h.core.sh.underway {
      BuildingHasNotEntered(h.core, c.s);
      EnterStep(h, c.s);
    } else {
      CoreStep(h, c);
    }
  }

  // ---- scheduling guards -----------------------------------------------------------------

  lemma HolderChange(setups: map<SetupId, L.Setup>, holders: set<SetupId>, s: SetupId)
    requires s in setups && !setups[s].phase.Added? && !setups[s].phase.Live?
    ensures Unspawned(setups, holders + {s}) == Unspawned(setups, holders)
    ensures Unspawned(setups, holders - {s}) == Unspawned(setups, holders)
  {
  }

  lemma HolderJoins(setups: map<SetupId, L.Setup>, holders: set<SetupId>, tasks: set<ConnId>, sched: int, s: SetupId)
    requires SchedInv(setups, holders, tasks, sched) && s in setups && setups[s].phase.Building? && s !in holders
    ensures SchedInv(setups, holders + {s}, tasks, sched + 1)
  {
  }

  lemma SchedStartStep(h: State, s: SetupId)
    requires Hooks(h) && Enabled(h, SchedStart(s))
    ensures Hooks(Apply(h, SchedStart(s)))
  {
    HolderJoins(h.core.setups, h.holders, h.tasks.Keys, h.sched, s);
    HolderChange(h.core.setups, h.holders, s);
  }

  lemma SchedAbortStep(h: State, s: SetupId)
    requires Hooks(h) && Enabled(h, SchedAbort(s))
    ensures Hooks(Apply(h, SchedAbort(s)))
  {
    HolderChange(h.core.setups, h.holders, s);
  }

  lemma HolderLeaves(setups: map<SetupId, L.Setup>, nextId: ConnId, entered: set<ConnId>, holders: set<SetupId>,
                     s: SetupId)
    requires L.SetupIdsInv(setups, nextId, entered)
    requires s in holders && s in setups && setups[s].phase.Live?
    ensures setups[s].phase.id in Unspawned(setups, holders)
    ensures Unspawned(setups, holders - {s}) == Unspawned(setups, holders) - {setups[s].phase.id}
  {
  }

  lemma SpawnInv(pending: set<ConnId>, tasks: map<ConnId, Task>, past: set<ConnId>, entered: set<ConnId>, id: ConnId,
                 addr: SocketAddr)
    requires OnConnectInv(pending, tasks, past, entered) && id in pending
    ensures var tasks' := tasks[id := Task(addr, ToTrigger)];
      && OnConnectInv(pending - {id}, tasks', past, entered)
      && id !in tasks && tasks'.Keys == tasks.Keys + {id}
  {
  }

  /** A setup that spawns its scheduling task is the first to do so for its connection. */
  lemma SpawnedIsNew(h: State, s: SetupId)
    requires OnConnects(h) && L.SetupIds(h.core) && Enabled(h, SpawnSched(s))
    ensures h.core.setups[s].phase.id !in h.tasks
  {
    HolderLeaves(h.core.setups, h.core.nextId, h.core.entered, h.holders, s);
  }

  lemma OcQueuedFrame(oc: Chan, tasks: map<ConnId, Task>, id: ConnId, task: Task)
    requires OcQueued(oc, tasks) && id !in tasks
    ensures OcQueued(oc, tasks[id := task])
  {
  }

  lemma HolderHandsOver(setups: map<SetupId, L.Setup>, holders: set<SetupId>, tasks: set<ConnId>, sched: int,
                        s: SetupId, id: ConnId)
    requires SchedInv(setups, holders, tasks, sched) && s in holders && id !in tasks
    ensures SchedInv(setups, holders - {s}, tasks + {id}, sched)
  {
  }

  function Spawned(h: State, s: SetupId): State
    requires s in h.core.setups && h.core.setups[s].phase.Live?
  {
    h.(holders := h.holders - {s},
       tasks := h.tasks[h.core.setups[s].phase.id := Task(h.core.setups[s].addr, ToTrigger)])
  }

  lemma SpawnEffect(h: State, s: SetupId)
    requires Enabled(h, SpawnSched(s))
    ensures Apply(h, SpawnSched(s)) == Spawned(h, s)
  {
  }

  lemma SpawnKeeps(h: State, s: SetupId)
    requires Hooks(h) && Enabled(h, SpawnSched(s)) && L.SetupIds(h.core)
    ensures Hooks(Spawned(h, s))
  {
    var addr, phase := h.core.setups[s].addr, h.core.setups[s].phase;
    HolderLeaves(h.core.setups, h.core.nextId, h.core.entered, h.holders, s);
    SpawnInv(Pending(h), h.tasks, h.oc.sent + h.oc.lost, h.core.entered, phase.id, addr);
    HolderHandsOver(h.core.setups, h.holders, h.tasks.Keys, h.sched, s, phase.id);
    OcQueuedFrame(h.oc, h.tasks, phase.id, Task(addr, ToTrigger));
    var h' := Spawned(h, s);
    GatesBusy(h.gates, h.signaled, h.core.sh, Pending(h), h.tasks.Keys, Pending(h'), h'.tasks.Keys);
  }

  lemma SpawnSchedStep(h: State, s: SetupId)
    requires Hooks(h) && Enabled(h, SpawnSched(s)) && L.SetupIds(h.core)
    ensures Hooks(Apply(h, SpawnSched(s)))
  {
    SpawnEffect(h, s);
    SpawnKeeps(h, s);
  }

  // ---- OnConnect -------------------------------------------------------------------------

  lemma StageChange(tasks: map<ConnId, Task>, id: ConnId, stage: Stage)
    requires id in tasks
    ensures tasks[id := tasks[id].(stage := stage)].Keys == tasks.Keys
  {
  }

  lemma SendOnConnectKept(h: State, id: ConnId)
    requires Enabled(h, SendOnConnect(id)) && OcQueued(h.oc, h.tasks) && !h.signaled && ClosedInv(h.oc, h.signaled)
    requires !h.voided ==> Untouched(h.oc, h.signaled)
    ensures var h' := Apply(h, SendOnConnect(id));
      OcQueued(h'.oc, h'.tasks) && ClosedInv(h'.oc, h'.signaled) && (!h.voided ==> Untouched(h'.oc, h'.signaled))
  {
  }

  lemma SendOnConnectStep(h: State, id: ConnId)
    requires Hooks(h) && Enabled(h, SendOnConnect(id))
    ensures Hooks(Apply(h, SendOnConnect(id)))
  {
    GatesBusy(h.gates, h.signaled, h.core.sh, Pending(h), h.tasks.Keys, Pending(h), h.tasks.Keys);
    SendOnConnectKept(h, id);
    SendInv(h.oc, Item(id, id));
    StageChange(h.tasks, id, if h.oc.closed then Replied else Waiting);
    SentOnce(Pending(h), h.tasks, h.oc.sent + h.oc.lost, h.core.entered, id, if h.oc.closed then Replied else Waiting);
  }

  lemma SentOnce(pending: set<ConnId>, tasks: map<ConnId, Task>, past: set<ConnId>, entered: set<ConnId>, id: ConnId,
                 stage: Stage)
    requires OnConnectInv(pending, tasks, past, entered) && id in tasks && !stage.ToTrigger?
    ensures OnConnectInv(pending, tasks[id := tasks[id].(stage := stage)], past + {id}, entered)
  {
  }

  lemma ProcessOnConnectKept(h: State)
    requires Enabled(h, ProcessOnConnect) && OcQueued(h.oc, h.tasks)
    requires forall i :: 0 < i < |h.oc.queue| ==> h.oc.queue[i].id != h.oc.queue[0].id
    ensures var h' := Apply(h, ProcessOnConnect); OcQueued(h'.oc, h'.tasks)
  {
  }

  lemma ProcessOnConnectStep(h: State)
    requires Hooks(h) && Enabled(h, ProcessOnConnect)
    ensures Hooks(Apply(h, ProcessOnConnect))
  {
    PopInv(h.oc);
    ProcessOnConnectKept(h);
    var id := h.oc.queue[0].id;
    if id in h.tasks {
      StageChange(h.tasks, id, Replied);
    }
    ReplyInv(Pending(h), h.tasks, h.oc.sent + h.oc.lost, h.core.entered, id);
  }

  lemma ReplyInv(pending: set<ConnId>, tasks: map<ConnId, Task>, past: set<ConnId>, entered: set<ConnId>, id: ConnId)
    requires OnConnectInv(pending, tasks, past, entered)
    ensures id in tasks && tasks[id].stage.Waiting? ==>
        OnConnectInv(pending, tasks[id := tasks[id].(stage := Replied)], past, entered)
  {
  }

  lemma GiveUpOnConnectStep(h: State, id: ConnId)
    requires Hooks(h) && Enabled(h, GiveUpOnConnect(id))
    ensures Hooks(Apply(h, GiveUpOnConnect(id)))
  {
    GatesBusy(h.gates, h.signaled, h.core.sh, Pending(h), h.tasks.Keys, Pending(h), h.tasks.Keys);
    StageChange(h.tasks, id, Replied);
    ReplyInv(Pending(h), h.tasks, h.oc.sent + h.oc.lost, h.core.entered, id);
  }

  lemma FinishedInv(pending: set<ConnId>, tasks: map<ConnId, Task>, past: set<ConnId>, entered: set<ConnId>, id: ConnId)
    requires OnConnectInv(pending, tasks, past, entered) && id in tasks && !tasks[id].stage.ToTrigger?
    ensures OnConnectInv(pending, tasks - {id}, past, entered)
    ensures (tasks - {id}).Keys == tasks.Keys - {id}
  {
  }

  lemma FinishedKept(oc: Chan, tasks: map<ConnId, Task>, id: ConnId)
    requires OcQueued(oc, tasks) && id in tasks && tasks[id].stage.Replied?
    ensures OcQueued(oc, tasks - {id})
  {
  }

  lemma FinishSchedStep(h: State, id: ConnId)
    requires Hooks(h) && Enabled(h, FinishSched(id))
    ensures Hooks(Apply(h, FinishSched(id)))
  {
    FinishedInv(Pending(h), h.tasks, h.oc.sent + h.oc.lost, h.core.entered, id);
    FinishedKept(h.oc, h.tasks, id);
    GatesBusy(h.gates, h.signaled, h.core.sh, Pending(h), h.tasks.Keys, Pending(h), h.tasks.Keys - {id});
  }

  // ---- OnDisconnect ----------------------------------------------------------------------

  /** Distinct finalizers are armed for distinct connections, none of them removed yet. */
  lemma FinalizersApart(core: L.State)
    requires L.Claims(core) && L.Ids(core)
    ensures forall f, g :: f in core.finalizers && g in core.finalizers && f != g ==>
        core.finalizers[f].id != core.finalizers[g].id
    ensures FinalizerIds(core.finalizers) !! core.removed
  {
    forall f | f in core.finalizers
      ensures core.finalizers[f].id !in core.removed
    {
      L.FinalizerMatch(core, f);
    }
  }

  /** An unclaimed connection is nobody's yet. */
  lemma UnclaimedIsFresh(core: L.State, addr: SocketAddr)
    requires L.Claims(core) && L.Ids(core) && addr in core.sh.active && !core.sh.active[addr].claimed
    ensures core.sh.active[addr].id !in core.removed + FinalizerIds(core.finalizers)
  {
    assert core.sh.active[addr].id in L.ActiveIds(core.sh.active);
    forall f | f in core.finalizers
      ensures core.finalizers[f].id != core.sh.active[addr].id
    {
      assert core.finalizers[f].addr != addr;
    }
  }

  lemma ArmedInv(finalizers: map<FinalizerId, L.Finalizer>, disc: map<FinalizerId, Stage>, past: set<ConnId>,
                 removed: set<ConnId>, f: FinalizerId, fin: L.Finalizer)
    requires OnDisconnectInv(finalizers, disc, past, removed) && f !in finalizers
    requires fin.id !in removed + FinalizerIds(finalizers)
    ensures OnDisconnectInv(finalizers[f := fin], disc[f := ToTrigger], past, removed)
  {
    var finalizers' := finalizers[f := fin];
    assert forall g :: g in finalizers ==> finalizers'[g] == finalizers[g];
    forall id | id in FinalizerIds(finalizers)
      ensures id in FinalizerIds(finalizers')
    {
      var g :| g in finalizers && finalizers[g].id == id;
      assert finalizers'[g].id == id;
    }
  }

  lemma ArmedKept(voided: bool, od: Chan, signaled: bool, finalizers: map<FinalizerId, L.Finalizer>,
                  disc: map<FinalizerId, Stage>, removed: set<ConnId>, f: FinalizerId, fin: L.Finalizer)
    requires OdKept(voided, od, signaled, finalizers, disc, removed) && f !in finalizers
    ensures OdKept(voided, od, signaled, finalizers[f := fin], disc[f := ToTrigger], removed)
  {
  }

  /** A claim was taken; `core'` may also differ in a shutdown's list of claims to try. */
  lemma ClaimWon(h: State, core': L.State, f: FinalizerId, addr: SocketAddr)
    requires Hooks(h) && L.Claims(h.core) && L.Ids(h.core) && f !in h.core.finalizers
    requires addr in h.core.sh.active && !h.core.sh.active[addr].claimed
    requires core'.setups == h.core.setups && core'.removed == h.core.removed && core'.entered == h.core.entered
    requires core'.sh == h.core.sh.(active := h.core.sh.active[addr := h.core.sh.active[addr].(claimed := true)])
    requires core'.finalizers == h.core.finalizers[f := L.Finalizer(addr, h.core.sh.active[addr].id)]
    ensures Hooks(h.(core := core', disc := h.disc[f := ToTrigger]))
  {
    UnclaimedIsFresh(h.core, addr);
    var fin := L.Finalizer(addr, h.core.sh.active[addr].id);
    ArmedInv(h.core.finalizers, h.disc, h.od.sent + h.od.lost, h.core.removed, f, fin);
    ArmedKept(h.voided, h.od, h.signaled, h.core.finalizers, h.disc, h.core.removed, f, fin);
    GatesFrame(h.gates, h.signaled, h.core.sh, core'.sh, Pending(h), h.tasks.Keys);
  }

  lemma ClaimLost(h: State, core': L.State)
    requires Hooks(h)
    requires core'.setups == h.core.setups && core'.removed == h.core.removed && core'.entered == h.core.entered
    requires core'.sh == h.core.sh && core'.finalizers == h.core.finalizers
    ensures Hooks(h.(core := core'))
  {
  }

  /** What trying a claim makes of the state, by its outcome. */
  lemma ClaimOutcome(h: State, l: Label)
    requires Enabled(h, l) && (l.ClaimDisconnect? || l.AttemptDisconnect?)
    ensures l.f !in h.core.finalizers
    ensures var core' := Apply(h, l).core; var want := if l.ClaimDisconnect? then l.want else None;
      && core'.setups == h.core.setups && core'.removed == h.core.removed && core'.entered == h.core.entered
      && if L.Claimable(h.core.sh, l.addr, want)
         then && core'.sh == L.AfterClaim(h.core.sh, l.addr, want)
              && core'.finalizers == h.core.finalizers[l.f := L.Finalizer(l.addr, h.core.sh.active[l.addr].id)]
              && Apply(h, l) == h.(core := core', disc := h.disc[l.f := ToTrigger])
         else && core'.sh == h.core.sh && core'.finalizers == h.core.finalizers
              && Apply(h, l) == h.(core := core')
  {
  }

  lemma TryClaimStep(h: State, l: Label)
    requires Hooks(h) && L.Claims(h.core) && L.Ids(h.core) && Enabled(h, l)
        && (l.ClaimDisconnect? || l.AttemptDisconnect?)
    ensures Hooks(Apply(h, l))
  {
    ClaimOutcome(h, l);
    if L.Claimable(h.core.sh, l.addr, if l.ClaimDisconnect? then l.want else None) {
      ClaimWon(h, Apply(h, l).core, l.f, l.addr);
    } else {
      ClaimLost(h, Apply(h, l).core);
    }
  }

  lemma SentDisconnectInv(finalizers: map<FinalizerId, L.Finalizer>, disc: map<FinalizerId, Stage>, past: set<ConnId>,
                          removed: set<ConnId>, f: FinalizerId, stage: Stage)
    requires OnDisconnectInv(finalizers, disc, past, removed) && f in disc && !stage.ToTrigger?
    requires forall g :: g in finalizers && g != f ==> finalizers[g].id != finalizers[f].id
    ensures OnDisconnectInv(finalizers, disc[f := stage], past + {finalizers[f].id}, removed)
  {
    assert disc[f := stage].Keys == disc.Keys;
    assert finalizers[f].id in FinalizerIds(finalizers);
  }

  lemma SendOnDisconnectKept(h: State, f: FinalizerId)
    requires Enabled(h, SendOnDisconnect(f)) && !h.signaled
    requires OdKept(h.voided, h.od, h.signaled, h.core.finalizers, h.disc, h.core.removed)
    ensures var h' := Apply(h, SendOnDisconnect(f));
      OdKept(h'.voided, h'.od, h'.signaled, h'.core.finalizers, h'.disc, h'.core.removed)
  {
  }

  lemma SendOnDisconnectStep(h: State, f: FinalizerId)
    requires Hooks(h) && Enabled(h, SendOnDisconnect(f)) && L.Claims(h.core) && L.Ids(h.core)
    ensures Hooks(Apply(h, SendOnDisconnect(f)))
  {
    FinalizersApart(h.core);
    assert h.core.finalizers[f].addr in h.core.sh.active;
    SendOnDisconnectKept(h, f);
    SendInv(h.od, Item(f, h.core.finalizers[f].id));
    SentDisconnectInv(h.core.finalizers, h.disc, h.od.sent + h.od.lost, h.core.removed, f,
                      if h.od.closed then Running else Waiting);
  }

  lemma LaterStageInv(finalizers: map<FinalizerId, L.Finalizer>, disc: map<FinalizerId, Stage>, past: set<ConnId>,
                      removed: set<ConnId>, f: FinalizerId, stage: Stage)
    requires OnDisconnectInv(finalizers, disc, past, removed)
    requires f in disc && !disc[f].ToTrigger? && !stage.ToTrigger?
    ensures OnDisconnectInv(finalizers, disc[f := stage], past, removed)
  {
    assert disc[f := stage].Keys == disc.Keys;
  }

  lemma ProcessOnDisconnectKept(h: State)
    requires Enabled(h, ProcessOnDisconnect)
    requires OdKept(h.voided, h.od, h.signaled, h.core.finalizers, h.disc, h.core.removed)
    requires forall i :: 0 < i < |h.od.queue| ==> h.od.queue[i].id != h.od.queue[0].id
    ensures var h' := Apply(h, ProcessOnDisconnect);
      OdKept(h'.voided, h'.od, h'.signaled, h'.core.finalizers, h'.disc, h'.core.removed)
  {
  }

  lemma ProcessOnDisconnectStep(h: State)
    requires Hooks(h) && Enabled(h, ProcessOnDisconnect)
    ensures Hooks(Apply(h, ProcessOnDisconnect))
  {
    PopInv(h.od);
    ProcessOnDisconnectKept(h);
    var f := h.od.queue[0].key;
    if f in h.disc && h.disc[f].Waiting? {
      LaterStageInv(h.core.finalizers, h.disc, h.od.sent + h.od.lost, h.core.removed, f, Replied);
    }
  }

  lemma PastQueueKept(voided: bool, od: Chan, signaled: bool, finalizers: map<FinalizerId, L.Finalizer>,
                      disc: map<FinalizerId, Stage>, removed: set<ConnId>, f: FinalizerId)
    requires OdKept(voided, od, signaled, finalizers, disc, removed) && f in disc && !disc[f].Waiting?
    ensures OdKept(voided, od, signaled, finalizers, disc[f := Running], removed)
  {
  }

  lemma AttachOnDisconnectStep(h: State, f: FinalizerId)
    requires Hooks(h) && Enabled(h, AttachOnDisconnect(f)) && L.Claims(h.core)
    ensures Hooks(Apply(h, AttachOnDisconnect(f)))
  {
    LaterStageInv(h.core.finalizers, h.disc, h.od.sent + h.od.lost, h.core.removed, f, Running);
    PastQueueKept(h.voided, h.od, h.signaled, h.core.finalizers, h.disc, h.core.removed, f);
  }

  lemma GiveUpOnDisconnectStep(h: State, f: FinalizerId)
    requires Hooks(h) && Enabled(h, GiveUpOnDisconnect(f)) && L.Claims(h.core)
    ensures Hooks(Apply(h, GiveUpOnDisconnect(f)))
  {
    LaterStageInv(h.core.finalizers, h.disc, h.od.sent + h.od.lost, h.core.removed, f, Running);
    assert h.core.finalizers[f].addr in h.core.sh.active;
  }

  lemma EndedInv(finalizers: map<FinalizerId, L.Finalizer>, disc: map<FinalizerId, Stage>, past: set<ConnId>,
                 removed: set<ConnId>, f: FinalizerId)
    requires OnDisconnectInv(finalizers, disc, past, removed) && f in finalizers
    ensures OnDisconnectInv(finalizers - {f}, disc - {f}, past, removed + {finalizers[f].id})
  {
    forall id | id in FinalizerIds(finalizers)
      ensures id == finalizers[f].id || id in FinalizerIds(finalizers - {f})
    {
      var g :| g in finalizers && finalizers[g].id == id;
      assert g != f ==> g in finalizers - {f} && (finalizers - {f})[g].id == id;
    }
  }

  lemma EndedKept(voided: bool, od: Chan, signaled: bool, finalizers: map<FinalizerId, L.Finalizer>,
                  disc: map<FinalizerId, Stage>, removed: set<ConnId>, f: FinalizerId)
    requires OdKept(voided, od, signaled, finalizers, disc, removed)
    requires f in finalizers && f in disc && disc[f].Running? && finalizers[f].id in od.sent + od.lost
    ensures OdKept(voided, od, signaled, finalizers - {f}, disc - {f}, removed + {finalizers[f].id})
  {
  }

  lemma CancelledKept(voided: bool, od: Chan, signaled: bool, finalizers: map<FinalizerId, L.Finalizer>,
                      disc: map<FinalizerId, Stage>, removed: set<ConnId>, f: FinalizerId)
    requires OdKept(voided, od, signaled, finalizers, disc, removed) && f in finalizers
    ensures OdKept(true, od, signaled, finalizers - {f}, disc - {f}, removed + {finalizers[f].id})
  {
  }

  lemma EndedCore(core: L.State, f: FinalizerId)
    requires L.Claims(core) && f in core.finalizers
    ensures var core' := L.FinalizeStep(core, f);
      && core'.finalizers == core.finalizers - {f} && core'.removed == core.removed + {core.finalizers[f].id}
      && core'.setups == core.setups && core'.entered == core.entered
      && core'.sh.underway == core.sh.underway && core'.sh.active == core.sh.active - {core.finalizers[f].addr}
  {
  }

  lemma EndDisconnectStep(h: State, l: Label)
    requires Hooks(h) && Enabled(h, l) && L.Claims(h.core) && (l.EndDisconnect? || l.CancelDisconnect?)
    ensures Hooks(Apply(h, l))
  {
    EndedCore(h.core, l.f);
    EndedInv(h.core.finalizers, h.disc, h.od.sent + h.od.lost, h.core.removed, l.f);
    if l.EndDisconnect? {
      EndedKept(h.voided, h.od, h.signaled, h.core.finalizers, h.disc, h.core.removed, l.f);
    } else {
      CancelledKept(h.voided, h.od, h.signaled, h.core.finalizers, h.disc, h.core.removed, l.f);
    }
    GatesFrame(h.gates, h.signaled, h.core.sh, L.FinalizeStep(h.core, l.f).sh, Pending(h), h.tasks.Keys);
  }

  // ---- shutdown --------------------------------------------------------------------------

  lemma GateAdvance(gates: map<CallerId, Gate>, signaled: bool, sh: L.Shared, pending: set<ConnId>, tasks: set<ConnId>,
                    k: CallerId, gate: Gate)
    requires GatesInv(gates, signaled, sh, pending, tasks)
    requires gate.ActiveDrained? ==> sh.underway && sh.active == map[]
    requires gate.SchedDrained? ==> Quiet(sh, pending, tasks)
    ensures GatesInv(gates[k := gate], signaled, sh, pending, tasks)
  {
  }

  lemma TakeSnapshotStep(h: State, k: CallerId)
    requires Hooks(h) && Enabled(h, TakeSnapshot(k))
    ensures Hooks(Apply(h, TakeSnapshot(k)))
  {
    GateAdvance(h.gates, h.signaled, h.core.sh, Pending(h), h.tasks.Keys, k, Fanning);
  }

  lemma PassActiveStep(h: State, k: CallerId)
    requires Hooks(h) && Enabled(h, PassActive(k)) && h.core.sh.underway
    ensures Hooks(Apply(h, PassActive(k)))
  {
    GateAdvance(h.gates, h.signaled, h.core.sh, Pending(h), h.tasks.Keys, k, ActiveDrained);
  }

  /** A counter at zero means no guard is left, with a setup or with a task. */
  lemma NoGuardLeft(setups: map<SetupId, L.Setup>, holders: set<SetupId>, tasks: set<ConnId>, sched: int)
    requires SchedInv(setups, holders, tasks, sched) && sched == 0
    ensures Unspawned(setups, holders) == {} && tasks == {}
  {
    assert holders == {};
  }

  lemma PassSchedStep(h: State, k: CallerId)
    requires Hooks(h) && Enabled(h, PassSched(k))
    ensures Hooks(Apply(h, PassSched(k)))
  {
    NoGuardLeft(h.core.setups, h.holders, h.tasks.Keys, h.sched);
    GateAdvance(h.gates, h.signaled, h.core.sh, Pending(h), h.tasks.Keys, k, SchedDrained);
  }

  lemma SignalGates(gates: map<CallerId, Gate>, signaled: bool, sh: L.Shared, pending: set<ConnId>, tasks: set<ConnId>,
                    k: CallerId)
    requires GatesInv(gates, signaled, sh, pending, tasks) && k in gates && gates[k].SchedDrained?
    ensures GatesInv(gates, true, sh, pending, tasks)
  {
  }

  lemma SignalStep(h: State, k: CallerId)
    requires Hooks(h) && Enabled(h, Signal(k))
    ensures Hooks(Apply(h, Signal(k)))
  {
    SignalGates(h.gates, h.signaled, h.core.sh, Pending(h), h.tasks.Keys, k);
  }

  lemma CloseStep(h: State, l: Label)
    requires Hooks(h) && Enabled(h, l) && (l.CloseOnConnect? || l.CloseOnDisconnect?)
    ensures Hooks(Apply(h, l))
  {
  }

  lemma GateGone(gates: map<CallerId, Gate>, signaled: bool, sh: L.Shared, pending: set<ConnId>, tasks: set<ConnId>,
                 k: CallerId)
    requires GatesInv(gates, signaled, sh, pending, tasks)
    ensures GatesInv(gates - {k}, signaled, sh, pending, tasks)
  {
  }

  lemma HardAbortStep(h: State, k: CallerId)
    requires Hooks(h) && Enabled(h, HardAbort(k))
    ensures Hooks(Apply(h, HardAbort(k)))
  {
    GateGone(h.gates, h.signaled, h.core.sh, Pending(h), h.tasks.Keys, k);
  }

  lemma DropChans(h: State, l: Label)
    requires Chans(h) && Enabled(h, l) && (l.DropOnConnect? || l.DropOnDisconnect?)
    ensures Chans(Apply(h, l))
  {
    AbortInv(h.oc);
    AbortInv(h.od);
  }

  lemma DropStep(h: State, l: Label)
    requires Hooks(h) && Enabled(h, l) && (l.DropOnConnect? || l.DropOnDisconnect?)
    ensures Hooks(Apply(h, l))
  {
    DropChans(h, l);
  }

  // ---- whole runs ------------------------------------------------------------------------

  /** The lifecycle label a step of this layer amounts to; `None` when it leaves it alone. */
  function Projected(l: Label): Option<L.Label> {
    match l
    case Core(c) => Some(c)
    case ClaimDisconnect(f, addr, want) => Some(L.Claim(f, addr, want))
    case AttemptDisconnect(k, addr, f) => Some(L.Attempt(k, addr, f))
    case EndDisconnect(f) => Some(L.FinalizerDrop(f))
    case CancelDisconnect(f) => Some(L.FinalizerDrop(f))
    case TakeSnapshot(k) => Some(L.Snapshot(k))
    case HardAbort(k) => Some(L.DropCaller(k))
    case _ => None
  }

  predicate OfOnConnect(l: Label) {
    l.SchedStart? || l.SchedAbort? || l.SpawnSched? || l.SendOnConnect? || l.ProcessOnConnect?
        || l.GiveUpOnConnect? || l.FinishSched?
  }

  predicate OfShutdown(l: Label) {
    || l.TakeSnapshot? || l.PassActive? || l.PassSched? || l.Signal? || l.CloseOnConnect? || l.CloseOnDisconnect?
    || l.HardAbort? || l.DropOnConnect? || l.DropOnDisconnect?
  }

  lemma OnConnectLeavesTheCore(h: State, l: Label)
    requires Enabled(h, l) && OfOnConnect(l)
    ensures Apply(h, l).core == h.core
  {
  }

  lemma OwnStepsLeaveTheCore(h: State, l: Label)
    requires Enabled(h, l) && Projected(l).None? && !OfOnConnect(l)
    ensures Apply(h, l).core == h.core
  {
  }

  lemma SharedStepsAreCoreSteps(h: State, l: Label)
    requires Enabled(h, l) && Projected(l).Some? && !l.Core?
    ensures Apply(h, l).core == L.Next(h.core, Projected(l).value)
  {
  }

  /** Every step of this layer is a lifecycle step or leaves the lifecycle alone, so what is
      proved of every lifecycle run holds here. */
  lemma Projects(h: State, l: Label)
    requires Enabled(h, l)
    ensures Apply(h, l).core == if Projected(l).Some? then L.Next(h.core, Projected(l).value) else h.core
  {
    if OfOnConnect(l) {
      OnConnectLeavesTheCore(h, l);
    } else if Projected(l).None? {
      OwnStepsLeaveTheCore(h, l);
    } else if !l.Core? {
      SharedStepsAreCoreSteps(h, l);
    }
  }

  lemma GuardStep(h: State, l: Label)
    requires Hooks(h) && L.SetupIds(h.core) && Enabled(h, l)
    requires l.Core? || l.SchedStart? || l.SchedAbort? || l.SpawnSched?
    ensures Hooks(Apply(h, l))
  {
    match l
    case Core(c) => AnyCoreStep(h, c);
    case SchedStart(s) => SchedStartStep(h, s);
    case SchedAbort(s) => SchedAbortStep(h, s);
    case SpawnSched(s) => SpawnSchedStep(h, s);
  }

  lemma ConnectStep(h: State, l: Label)
    requires Hooks(h) && Enabled(h, l)
    requires l.SendOnConnect? || l.ProcessOnConnect? || l.GiveUpOnConnect? || l.FinishSched?
    ensures Hooks(Apply(h, l))
  {
    match l
    case SendOnConnect(id) => SendOnConnectStep(h, id);
    case ProcessOnConnect => ProcessOnConnectStep(h);
    case GiveUpOnConnect(id) => GiveUpOnConnectStep(h, id);
    case FinishSched(id) => FinishSchedStep(h, id);
  }

  lemma TriggerStep(h: State, l: Label)
    requires Hooks(h) && L.Claims(h.core) && L.Ids(h.core) && Enabled(h, l)
    requires l.SendOnDisconnect? || l.ProcessOnDisconnect? || l.GiveUpOnDisconnect? || l.AttachOnDisconnect?
    ensures Hooks(Apply(h, l))
  {
    match l
    case SendOnDisconnect(f) => SendOnDisconnectStep(h, f);
    case ProcessOnDisconnect => ProcessOnDisconnectStep(h);
    case GiveUpOnDisconnect(f) => GiveUpOnDisconnectStep(h, f);
    case AttachOnDisconnect(f) => AttachOnDisconnectStep(h, f);
  }

  lemma DisconnectStep(h: State, l: Label)
    requires Hooks(h) && L.Claims(h.core) && L.Ids(h.core) && Enabled(h, l)
    requires l.ClaimDisconnect? || l.AttemptDisconnect? || l.EndDisconnect? || l.CancelDisconnect?
    ensures Hooks(Apply(h, l))
  {
    if l.EndDisconnect? || l.CancelDisconnect? {
      EndDisconnectStep(h, l);
    } else {
      TryClaimStep(h, l);
    }
  }

  lemma GateStep(h: State, l: Label)
    requires Hooks(h) && L.Shutdown(h.core) && Enabled(h, l)
    requires l.TakeSnapshot? || l.PassActive? || l.PassSched? || l.Signal?
    ensures Hooks(Apply(h, l))
  {
    match l
    case TakeSnapshot(k) => TakeSnapshotStep(h, k);
    case PassActive(k) => PassActiveStep(h, k);
    case PassSched(k) => PassSchedStep(h, k);
    case Signal(k) => SignalStep(h, k);
  }

  lemma ShutdownStep(h: State, l: Label)
    requires Hooks(h) && L.Shutdown(h.core) && Enabled(h, l) && OfShutdown(l)
    ensures Hooks(Apply(h, l))
  {
    if l.HardAbort? {
      HardAbortStep(h, l.k);
    } else if l.DropOnConnect? || l.DropOnDisconnect? {
      DropStep(h, l);
    } else if l.CloseOnConnect? || l.CloseOnDisconnect? {
      CloseStep(h, l);
    } else {
      GateStep(h, l);
    }
  }

  lemma CoreInv(h: State, l: Label)
    requires L.Inv(h.core)
    ensures L.Inv(Next(h, l).core)
  {
    if Enabled(h, l) {
      Projects(h, l);
      if Projected(l).Some? {
        L.StepInv(h.core, Projected(l).value);
      }
    }
  }

  /** Every step of every task keeps the invariant. */
  lemma StepInv(h: State, l: Label)
    requires Inv(h)
    ensures Inv(Next(h, l))
  {
    CoreInv(h, l);
    if Enabled(h, l) {
      HooksStep(h, l);
    }
  }

  lemma HooksStep(h: State, l: Label)
    requires Hooks(h) && L.SetupIds(h.core) && L.Claims(h.core) && L.Ids(h.core) && L.Shutdown(h.core) && Enabled(h, l)
    ensures Hooks(Apply(h, l))
  {
    if OfShutdown(l) {
      ShutdownStep(h, l);
    } else if l.Core? || l.SchedStart? || l.SchedAbort? || l.SpawnSched? {
      GuardStep(h, l);
    } else if OfOnConnect(l) {
      ConnectStep(h, l);
    } else if l.SendOnDisconnect? || l.ProcessOnDisconnect? || l.GiveUpOnDisconnect? || l.AttachOnDisconnect? {
      TriggerStep(h, l);
    } else {
      DisconnectStep(h, l);
    }
  }

  /** Every connection that ever entered has had both triggers processed, exactly once each; nothing
      else has been processed, and no trigger met a closed channel. */
  ghost predicate Paired(h: State) {
    && h.oc.processed == multiset(h.core.entered) && h.od.processed == multiset(h.core.entered)
    && h.oc.lost == {} && h.od.lost == {}
    && h.core.sh.active == map[]
  }

  /** When the handlers are told to wind down in a run that was not voided, the hooks are paired. */
  lemma SignaledIsPaired(h: State)
    requires Inv(h) && h.signaled && !h.voided
    ensures Paired(h)
  {
    PairedConnects(h);
    PairedDisconnects(h);
  }

  lemma OcAwaited(h: State)
    requires OcQueued(h.oc, h.tasks)
    ensures |h.oc.queue| > 0 ==> h.oc.queue[0].id in h.tasks
  {
  }

  lemma OdAwaited(h: State)
    requires OdKept(h.voided, h.od, h.signaled, h.core.finalizers, h.disc, h.core.removed) && !h.voided
    ensures |h.od.queue| > 0 ==> h.od.queue[0].key in h.core.finalizers
  {
  }

  lemma OwnedEntries(core: L.State)
    requires L.Claims(core)
    ensures core.finalizers != map[] ==> core.sh.active != map[]
  {
    if core.finalizers != map[] {
      var f :| f in core.finalizers;
      assert core.finalizers[f].addr in core.sh.active;
    }
  }

  lemma PairedConnects(h: State)
    requires OnConnects(h) && Gates(h) && Chans(h) && h.signaled && !h.voided
    ensures h.oc.processed == multiset(h.core.entered)
  {
    assert h.tasks.Keys == {};
    OcAwaited(h);
    assert ItemIds([]) == [];
    assert h.oc.sent == h.core.entered;
  }

  lemma PairedDisconnects(h: State)
    requires OnDisconnects(h) && Gates(h) && Chans(h) && h.signaled && !h.voided && L.Claims(h.core) && L.Ids(h.core)
    ensures h.od.processed == multiset(h.core.entered)
  {
    OwnedEntries(h.core);
    assert FinalizerIds(h.core.finalizers) == {} && L.ActiveIds(h.core.sh.active) == {};
    OdAwaited(h);
    assert ItemIds([]) == [];
    assert h.od.sent == h.core.removed == h.core.entered;
  }

  lemma SentHaveEntered(h: State)
    requires Inv(h)
    ensures h.oc.sent <= h.core.entered && h.od.sent <= h.core.entered
  {
    ConnectedEntered(h);
    TornDownEntered(h);
  }

  lemma ProcessedWithin(ch: Chan, entered: set<ConnId>)
    requires ChanInv(ch) && ch.sent <= entered
    ensures ch.processed <= multiset(entered)
  {
    assert ch.processed <= multiset(ch.sent);
  }

  lemma ConnectedEntered(h: State)
    requires OnConnects(h)
    ensures h.oc.sent <= h.core.entered
  {
  }

  lemma TornDownEntered(h: State)
    requires OnDisconnects(h) && L.Claims(h.core) && L.Ids(h.core)
    ensures h.od.sent <= h.core.entered
  {
    forall f | f in h.core.finalizers
      ensures h.core.finalizers[f].id in L.ActiveIds(h.core.sh.active)
    {
      assert h.core.sh.active[h.core.finalizers[f].addr].id == h.core.finalizers[f].id;
    }
  }
}
