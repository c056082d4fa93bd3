/**
 What becomes of the tasks that run the hooks, as a layer over `HookPairing`.

 A handler that processes a trigger spawns a task for the hook and sends its handle back. The
 sender of the trigger then attaches the handle to a connection, whose removal aborts it, or aborts
 it, or lets it go. A handle that is dropped in between, with the channel it was sent through or
 with a future that no longer wants it, leaves its task detached: running with nobody to stop it.

 Waiting for a reply ends in two steps when it times out: first the wait is over, then the
 receiver is dropped. A reply sent in between is lost with the receiver.
 */
module HookTasks {
  import opened Util
  import opened Net
  import opened Limits
  import L = Lifecycle
  import H = HookPairing

  type ConnId = L.ConnId
  type FinalizerId = L.FinalizerId

  /** Where a hook's task is: its handle on the way back, with a connection, aborted, or nowhere. */
  datatype Fate = InFlight | Attached(owner: ConnId) | Aborted | Detached

  /** `connects` and `disconnects` are the tasks of the processed triggers, by the connection each
      is about. `leaving` and `closing` are the waits that timed out with their receiver still
      there; `vanished` says that a disconnect found its own connection gone. */
  datatype State = State(
    h: H.State,
    abortable: bool,
    connects: map<ConnId, Fate>,
    disconnects: map<ConnId, Fate>,
    leaving: set<ConnId>,
    closing: set<FinalizerId>,
    vanished: bool
  )

  datatype Label =
    | Hook(l: H.Label)
    | DropConnectReceiver(id: ConnId)
    | DropDisconnectReceiver(f: FinalizerId)

  function Init(cfg: L.Config, abortable: bool): State {
    State(H.Init(cfg), abortable, map[], map[], {}, {}, false)
  }

  predicate Enabled(t: State, l: Label) {
    match l
    case Hook(c) =>
      && H.Enabled(t.h, c)
      && (c.FinishSched? ==> c.id !in t.leaving)
      && (c.EndDisconnect? ==> c.f !in t.closing)
    case DropConnectReceiver(id) => id in t.leaving
    case DropDisconnectReceiver(f) => f in t.closing
  }

  // ---- how fates change --------------------------------------------------------------------

  /** A reply that nobody takes out of its channel goes with it. */
  function Dropped(fates: map<ConnId, Fate>, id: ConnId): map<ConnId, Fate> {
    if id in fates && fates[id].InFlight? then fates[id := Detached] else fates
  }

  /** A connection that is destroyed aborts the tasks attached to it. */
  function Orphaned(fates: map<ConnId, Fate>, owner: ConnId): map<ConnId, Fate> {
    map id | id in fates :: if fates[id] == Attached(owner) then Aborted else fates[id]
  }

  /** Whether somebody is still there to receive the reply to the trigger of connection `id`. */
  predicate ConnectWaits(t: State, id: ConnId) {
    (id in t.h.tasks && t.h.tasks[id].stage.Waiting?) || id in t.leaving
  }

  predicate DisconnectWaits(t: State, item: H.Item) {
    && item.key in t.h.disc && item.key in t.h.core.finalizers && t.h.core.finalizers[item.key].id == item.id
    && (t.h.disc[item.key].Waiting? || item.key in t.closing)
  }

  /** The `OnConnect` handler: an abortable hook nobody waits for is aborted at once. */
  function ConnectReplied(t: State): map<ConnId, Fate>
    requires t.h.oc.queue != []
  {
    var id := t.h.oc.queue[0].id;
    t.connects[id := if ConnectWaits(t, id) then InFlight else if t.abortable then Aborted else Detached]
  }

  function DisconnectReplied(t: State): map<ConnId, Fate>
    requires t.h.od.queue != []
  {
    var item := t.h.od.queue[0];
    t.disconnects[item.id := if DisconnectWaits(t, item) then InFlight else Aborted]
  }

  /** The end of the scheduling task: where the handle goes, if one came back. */
  function Scheduled(t: State, id: ConnId): map<ConnId, Fate>
    requires id in t.h.tasks
  {
    var addr, active := t.h.tasks[id].addr, t.h.core.sh.active;
    if id !in t.connects || !t.connects[id].InFlight? then t.connects
    else if !t.abortable then t.connects[id := Detached]
    else if addr in active && active[addr].id == id then t.connects[id := Attached(active[addr].id)]
    else t.connects[id := Aborted]
  }

  /** A disconnect takes its hook's handle to whatever connection has the address. */
  function DisconnectTaken(t: State, f: FinalizerId): map<ConnId, Fate>
    requires f in t.h.core.finalizers
  {
    var addr, id, active := t.h.core.finalizers[f].addr, t.h.core.finalizers[f].id, t.h.core.sh.active;
    if id !in t.disconnects || !t.disconnects[id].InFlight? then t.disconnects
    else if addr in active then t.disconnects[id := Attached(active[addr].id)]
    else t.disconnects[id := Aborted]
  }

  /** The finalizer's drop, for the tasks attached to the connection it removes. */
  function AfterRemoval(t: State, f: FinalizerId, fates: map<ConnId, Fate>): map<ConnId, Fate>
    requires f in t.h.core.finalizers
  {
    var addr := t.h.core.finalizers[f].addr;
    if addr in t.h.core.sh.active then Orphaned(fates, t.h.core.sh.active[addr].id) else fates
  }

  function ConnectsAfter(t: State, c: H.Label): map<ConnId, Fate>
    requires H.Enabled(t.h, c)
  {
    match c
    case ProcessOnConnect => ConnectReplied(t)
    case FinishSched(id) => Scheduled(t, id)
    case EndDisconnect(f) => AfterRemoval(t, f, t.connects)
    case CancelDisconnect(f) => AfterRemoval(t, f, t.connects)
    case _ => t.connects
  }

  function DisconnectsAfter(t: State, c: H.Label): map<ConnId, Fate>
    requires H.Enabled(t.h, c)
  {
    match c
    case ProcessOnDisconnect => DisconnectReplied(t)
    case AttachOnDisconnect(f) => DisconnectTaken(t, f)
    case EndDisconnect(f) => AfterRemoval(t, f, t.disconnects)
    case CancelDisconnect(f) => AfterRemoval(t, f, Dropped(t.disconnects, t.h.core.finalizers[f].id))
    case _ => t.disconnects
  }

  function Apply(t: State, l: Label): State
    requires Enabled(t, l)
  {
    match l
    case DropConnectReceiver(id) => t.(leaving := t.leaving - {id}, connects := Dropped(t.connects, id))
    case DropDisconnectReceiver(f) =>
      var fins := t.h.core.finalizers;
      t.(closing := t.closing - {f},
         disconnects := if f in fins then Dropped(t.disconnects, fins[f].id) else t.disconnects)
    case Hook(c) =>
      t.(h := H.Apply(t.h, c),
         connects := ConnectsAfter(t, c),
         disconnects := DisconnectsAfter(t, c),
         leaving := if c.GiveUpOnConnect? then t.leaving + {c.id} else t.leaving,
         closing := if c.GiveUpOnDisconnect? then t.closing + {c.f}
                    else if c.CancelDisconnect? then t.closing - {c.f} else t.closing,
         vanished := t.vanished
                     || (c.AttachOnDisconnect? && t.h.core.finalizers[c.f].addr !in t.h.core.sh.active))
  }

  function Next(t: State, l: Label): State {
    if Enabled(t, l) then Apply(t, l) else t
  }

  function Exec(t: State, ls: seq<Label>): State
    decreases |ls|
  {
    if ls == [] then t else Next(Exec(t, ls[..|ls| - 1]), ls[|ls| - 1])
  }

  // ---- the layer below ---------------------------------------------------------------------

  /** A step of this layer is a step of the hook layer, or none. */
  lemma Projects(t: State, l: Label)
    ensures Next(t, l).h == (if l.Hook? && Enabled(t, l) then H.Next(t.h, l.l) else t.h)
    ensures Next(t, l).abortable == t.abortable
  {
  }

  // ---- OnConnect: the invariant ------------------------------------------------------------

  /** A handle in flight has its scheduling task about to take it; an attached one is with its own,
      active connection; only abortable tasks are aborted and only the others are let go. */
  ghost predicate ConnectFates(fates: map<ConnId, Fate>, tasks: map<ConnId, H.Task>, active: set<ConnId>,
                               abortable: bool) {
    forall id :: id in fates ==>
      match fates[id]
      case InFlight => id in tasks && tasks[id].stage.Replied?
      case Attached(owner) => abortable && owner == id && id in active
      case Aborted => abortable
      case Detached => !abortable
  }

  /** The triggers that have a task are the processed ones, and nobody still waits for those. */
  ghost predicate ConnectsMatch(fates: map<ConnId, Fate>, tasks: map<ConnId, H.Task>, processed: multiset<ConnId>) {
    && (forall id :: id in fates <==> id in processed)
    && (forall id :: id in tasks && tasks[id].stage.Waiting? ==> id !in fates)
  }

  /** Waits only time out on a closed channel, for triggers that were never processed. */
  ghost predicate LeavingInv(leaving: set<ConnId>, fates: map<ConnId, Fate>, tasks: map<ConnId, H.Task>, closed: bool) {
    forall id :: id in leaving ==> id in tasks && tasks[id].stage.Replied? && id !in fates && closed
  }

  /** The connections that entered the active set and did not leave it: the active ones. */
  ghost function ActiveOf(h: H.State): set<ConnId> { h.core.entered - h.core.removed }

  lemma ActiveAreActive(core: L.State)
    requires L.Ids(core)
    ensures core.entered - core.removed == L.ActiveIds(core.sh.active)
  {
  }

  ghost predicate Connects(t: State) {
    && ConnectFates(t.connects, t.h.tasks, ActiveOf(t.h), t.abortable)
    && ConnectsMatch(t.connects, t.h.tasks, t.h.oc.processed)
    && LeavingInv(t.leaving, t.connects, t.h.tasks, t.h.oc.closed)
  }

  // ---- OnConnect: the steps ----------------------------------------------------------------

  /** Somebody still waiting means no signal yet, so a closed channel is an aborted one: empty. */
  lemma NothingLeftToProcess(h: H.State, id: ConnId)
    requires H.Gates(h) && H.Chans(h) && id in h.tasks && h.oc.closed
    ensures h.oc.queue == []
  {
  }

  lemma ReplyReaches(t: State)
    requires H.Gates(t.h) && H.Chans(t.h) && Connects(t) && Enabled(t, Hook(H.ProcessOnConnect))
    ensures Connects(Apply(t, Hook(H.ProcessOnConnect)))
    ensures t.leaving == {}
  {
    forall id | id in t.leaving
      ensures false
    {
      NothingLeftToProcess(t.h, id);
    }
  }

  /** An accepted trigger has not been processed before. */
  lemma UnsentIsUnprocessed(h: H.State, id: ConnId)
    requires H.OnConnects(h) && H.ChanInv(h.oc) && id in h.tasks && h.tasks[id].stage.ToTrigger?
    ensures id !in h.oc.processed
  {
    assert h.oc.processed <= multiset(h.oc.sent);
  }

  lemma SendKeepsConnects(t: State, id: ConnId)
    requires H.OnConnects(t.h) && H.Chans(t.h) && Connects(t) && Enabled(t, Hook(H.SendOnConnect(id)))
    ensures Connects(Apply(t, Hook(H.SendOnConnect(id))))
  {
    UnsentIsUnprocessed(t.h, id);
  }

  lemma GiveUpKeepsConnects(t: State, id: ConnId)
    requires Connects(t) && Enabled(t, Hook(H.GiveUpOnConnect(id)))
    ensures Connects(Apply(t, Hook(H.GiveUpOnConnect(id))))
  {
  }

  lemma FinishKeepsConnects(t: State, id: ConnId)
    requires Connects(t) && Enabled(t, Hook(H.FinishSched(id))) && L.Ids(t.h.core)
    ensures Connects(Apply(t, Hook(H.FinishSched(id))))
  {
    var addr, active := t.h.tasks[id].addr, t.h.core.sh.active;
    assert addr in active ==> active[addr].id in L.ActiveIds(active);
  }

  lemma SpawnKeepsConnects(t: State, s: H.SetupId)
    requires Connects(t) && Enabled(t, Hook(H.SpawnSched(s))) && t.h.core.setups[s].phase.id !in t.h.tasks
    ensures Connects(Apply(t, Hook(H.SpawnSched(s))))
  {
  }

  lemma LettingGoKeepsConnects(t: State, id: ConnId)
    requires Connects(t) && Enabled(t, DropConnectReceiver(id))
    ensures Connects(Apply(t, DropConnectReceiver(id)))
  {
  }

  /** Removing a connection: its tasks are aborted, and every other stays where it is. */
  lemma RemovalKeepsConnects(fates: map<ConnId, Fate>, tasks: map<ConnId, H.Task>, active: set<ConnId>, abortable: bool,
                             id: ConnId)
    requires ConnectFates(fates, tasks, active, abortable)
    ensures ConnectFates(Orphaned(fates, id), tasks, active - {id}, abortable)
    ensures Orphaned(fates, id).Keys == fates.Keys
  {
  }

  lemma EndKeepsConnects(t: State, l: Label)
    requires Connects(t) && Enabled(t, l) && l.Hook? && (l.l.EndDisconnect? || l.l.CancelDisconnect?)
    ensures Connects(Apply(t, l))
  {
    var f := l.l.f;
    var addr := t.h.core.finalizers[f].addr;
    if addr in t.h.core.sh.active {
      var id := t.h.core.sh.active[addr].id;
      RemovalKeepsConnects(t.connects, t.h.tasks, ActiveOf(t.h), t.abortable, id);
      assert ActiveOf(Apply(t, l).h) == ActiveOf(t.h) - {id};
    }
  }

  // ---- what the other steps leave alone ----------------------------------------------------

  predicate OfFates(c: H.Label) {
    || c.SpawnSched? || c.SendOnConnect? || c.ProcessOnConnect? || c.GiveUpOnConnect? || c.FinishSched?
    || c.EndDisconnect? || c.CancelDisconnect?
  }

  predicate OfDisconnects(c: H.Label) {
    || c.ClaimDisconnect? || c.AttemptDisconnect? || c.SendOnDisconnect? || c.ProcessOnDisconnect?
    || c.GiveUpOnDisconnect? || c.AttachOnDisconnect? || c.EndDisconnect? || c.CancelDisconnect?
  }

  lemma OthersKeepActive(h: H.State, c: H.Label)
    requires H.Enabled(h, c) && !c.EndDisconnect? && !c.CancelDisconnect?
    ensures var h' := H.Apply(h, c); h.core.entered <= h'.core.entered && h'.core.removed == h.core.removed
  {
    H.Projects(h, c);
    var p := H.Projected(c);
    if p.Some? && L.Enabled(h.core, p.value) {
      L.EnteredFrame(h.core, p.value);
      L.RemovedFrame(h.core, p.value);
    }
  }

  lemma DisconnectLabelsKeepConnects(h: H.State, c: H.Label)
    requires H.Enabled(h, c) && OfDisconnects(c)
    ensures var h' := H.Apply(h, c); h'.tasks == h.tasks && h'.oc == h.oc
  {
  }

  lemma SetupLabelsKeepConnects(h: H.State, c: H.Label)
    requires H.Enabled(h, c) && (c.Core? || c.SchedStart? || c.SchedAbort?)
    ensures var h' := H.Apply(h, c); h'.tasks == h.tasks && h'.oc == h.oc
  {
  }

  lemma ShutdownLabelsKeepConnects(h: H.State, c: H.Label)
    requires H.Enabled(h, c) && H.OfShutdown(c)
    ensures var h' := H.Apply(h, c);
      h'.tasks == h.tasks && h'.oc.processed == h.oc.processed && (h.oc.closed ==> h'.oc.closed)
  {
  }

  lemma OthersKeepConnects(h: H.State, c: H.Label)
    requires H.Enabled(h, c) && !OfFates(c)
    ensures var h' := H.Apply(h, c);
      h'.tasks == h.tasks && h'.oc.processed == h.oc.processed && (h.oc.closed ==> h'.oc.closed)
  {
    if OfDisconnects(c) {
      DisconnectLabelsKeepConnects(h, c);
    } else if H.OfShutdown(c) {
      ShutdownLabelsKeepConnects(h, c);
    } else {
      SetupLabelsKeepConnects(h, c);
    }
  }

  lemma ConnectsFrame(t: State, t': State)
    requires Connects(t)
    requires t'.connects == t.connects && t'.leaving == t.leaving && t'.abortable == t.abortable
    requires t'.h.tasks == t.h.tasks && t'.h.oc.processed == t.h.oc.processed && (t.h.oc.closed ==> t'.h.oc.closed)
    requires ActiveOf(t.h) <= ActiveOf(t'.h)
    ensures Connects(t')
  {
  }

  lemma OtherLabels(t: State, c: H.Label)
    requires Enabled(t, Hook(c)) && !OfFates(c)
    ensures var t' := Apply(t, Hook(c));
      t'.connects == t.connects && t'.leaving == t.leaving && t'.abortable == t.abortable && t'.h == H.Apply(t.h, c)
  {
  }

  lemma OthersKeep(t: State, c: H.Label)
    requires Connects(t) && Enabled(t, Hook(c)) && !OfFates(c)
    ensures Connects(Apply(t, Hook(c)))
  {
    OtherLabels(t, c);
    OthersKeepActive(t.h, c);
    OthersKeepConnects(t.h, c);
    ConnectsFrame(t, Apply(t, Hook(c)));
  }

  /** Every step keeps the tasks of the `OnConnect` hooks accounted for. */
  lemma ConnectsStep(t: State, l: Label)
    requires H.OnConnects(t.h) && H.Gates(t.h) && H.Chans(t.h) && L.SetupIds(t.h.core) && L.Ids(t.h.core)
    requires Connects(t) && Enabled(t, l)
    ensures Connects(Apply(t, l))
  {
    match l
    case DropConnectReceiver(id) => LettingGoKeepsConnects(t, id);
    case DropDisconnectReceiver(f) => ConnectsFrame(t, Apply(t, l));
    case Hook(c) => HookKeepsConnects(t, c);
  }

  lemma HookKeepsConnects(t: State, c: H.Label)
    requires H.OnConnects(t.h) && H.Gates(t.h) && H.Chans(t.h) && L.SetupIds(t.h.core) && L.Ids(t.h.core)
    requires Connects(t) && Enabled(t, Hook(c))
    ensures Connects(Apply(t, Hook(c)))
  {
    if c.EndDisconnect? || c.CancelDisconnect? {
      EndKeepsConnects(t, Hook(c));
    } else if OfFates(c) {
      TriggerKeepsConnects(t, c);
    } else {
      OthersKeep(t, c);
    }
  }

  lemma TriggerKeepsConnects(t: State, c: H.Label)
    requires H.OnConnects(t.h) && H.Gates(t.h) && H.Chans(t.h) && L.SetupIds(t.h.core) && L.Ids(t.h.core)
    requires Connects(t) && Enabled(t, Hook(c)) && OfFates(c) && !OfDisconnects(c)
    ensures Connects(Apply(t, Hook(c)))
  {
    match c
    case SpawnSched(s) =>
      H.SpawnedIsNew(t.h, s);
      SpawnKeepsConnects(t, s);
    case SendOnConnect(id) => SendKeepsConnects(t, id);
    case ProcessOnConnect => ReplyReaches(t);
    case GiveUpOnConnect(id) => GiveUpKeepsConnects(t, id);
    case FinishSched(id) => FinishKeepsConnects(t, id);
  }

  // ---- OnDisconnect: the invariant ---------------------------------------------------------

  /** The connections whose disconnect has had its reply sent and has not taken it yet. */
  ghost function RepliedIds(finalizers: map<FinalizerId, L.Finalizer>, disc: map<FinalizerId, H.Stage>): set<ConnId> {
    set f | f in finalizers && f in disc && disc[f].Replied? :: finalizers[f].id
  }

  /** A handle is in flight exactly while its disconnect is about to take it; an attached one is
      with its own, active connection. */
  ghost predicate DisconnectFates(fates: map<ConnId, Fate>, replied: set<ConnId>, active: set<ConnId>) {
    && (forall id :: id in fates ==>
          match fates[id]
          case InFlight => id in replied
          case Attached(owner) => owner == id && id in active
          case _ => true)
    && (forall id :: id in replied ==> id in fates && fates[id].InFlight?)
  }

  ghost predicate DisconnectsMatch(fates: map<ConnId, Fate>, finalizers: map<FinalizerId, L.Finalizer>,
                                   disc: map<FinalizerId, H.Stage>, processed: multiset<ConnId>) {
    && disc.Keys == finalizers.Keys
    && (forall id :: id in fates <==> id in processed)
    && (forall f :: f in disc && disc[f].Waiting? ==> finalizers[f].id !in fates)
  }

  ghost predicate ClosingInv(closing: set<FinalizerId>, fates: map<ConnId, Fate>,
                             finalizers: map<FinalizerId, L.Finalizer>, disc: map<FinalizerId, H.Stage>,
                             closed: bool) {
    forall f :: f in closing ==>
      f in finalizers && f in disc && disc[f].Running? && finalizers[f].id !in fates && closed
  }

  ghost predicate DisconnectsInv(fates: map<ConnId, Fate>, closing: set<FinalizerId>,
                                 finalizers: map<FinalizerId, L.Finalizer>, disc: map<FinalizerId, H.Stage>,
                                 processed: multiset<ConnId>, closed: bool, active: set<ConnId>) {
    && DisconnectFates(fates, RepliedIds(finalizers, disc), active)
    && DisconnectsMatch(fates, finalizers, disc, processed)
    && ClosingInv(closing, fates, finalizers, disc, closed)
  }

  ghost predicate Disconnects(t: State) {
    && DisconnectsInv(t.disconnects, t.closing, t.h.core.finalizers, t.h.disc, t.h.od.processed, t.h.od.closed,
        ActiveOf(t.h))
    && !t.vanished
  }

  /** Finalizers are armed for distinct connections. */
  ghost predicate Apart(finalizers: map<FinalizerId, L.Finalizer>) {
    forall f, g :: f in finalizers && g in finalizers && f != g ==> finalizers[f].id != finalizers[g].id
  }

  lemma RepliedChange(finalizers: map<FinalizerId, L.Finalizer>, disc: map<FinalizerId, H.Stage>, f: FinalizerId,
                      stage: H.Stage)
    requires Apart(finalizers) && f in finalizers && f in disc
    ensures var ids, ids' := RepliedIds(finalizers, disc), RepliedIds(finalizers, disc[f := stage]);
      ids' == if stage.Replied? then ids + {finalizers[f].id} else ids - {finalizers[f].id}
    ensures finalizers[f].id in RepliedIds(finalizers, disc) <==> disc[f].Replied?
  {
    var disc' := disc[f := stage];
    forall g | g in finalizers && g in disc
      ensures (finalizers[g].id in RepliedIds(finalizers, disc)) <==> disc[g].Replied?
      ensures (finalizers[g].id in RepliedIds(finalizers, disc')) <==> disc'[g].Replied?
    {
    }
  }

  // ---- OnDisconnect: the steps -------------------------------------------------------------

  lemma HeadIsUnprocessed(ch: H.Chan)
    requires H.ChanInv(ch) && ch.queue != []
    ensures ch.queue[0].id !in ch.processed
  {
    var ids := H.ItemIds(ch.queue);
    assert ids[0] in multiset(ids);
    assert multiset(ch.sent)[ids[0]] <= 1;
  }

  /** A disconnect under way means an active connection, so no signal yet. */
  lemma NoReplyAfterClosing(h: H.State, f: FinalizerId)
    requires H.Gates(h) && H.Chans(h) && L.Claims(h.core) && f in h.core.finalizers && h.od.closed
    ensures h.od.queue == []
  {
    assert h.core.finalizers[f].addr in h.core.sh.active;
  }

  lemma ReplyMeets(t: State)
    requires H.Gates(t.h) && H.Chans(t.h) && L.Claims(t.h.core) && Disconnects(t) && t.h.od.queue != []
    ensures t.closing == {}
  {
    forall f | f in t.closing
      ensures false
    {
      NoReplyAfterClosing(t.h, f);
    }
  }

  lemma ReplyFates(fates: map<ConnId, Fate>, replied: set<ConnId>, active: set<ConnId>, id: ConnId, waits: bool)
    requires DisconnectFates(fates, replied, active) && id !in fates
    ensures DisconnectFates(fates[id := if waits then InFlight else Aborted],
                            if waits then replied + {id} else replied, active)
  {
  }

  lemma ReplyMatch(fates: map<ConnId, Fate>, finalizers: map<FinalizerId, L.Finalizer>, disc: map<FinalizerId, H.Stage>,
                   processed: multiset<ConnId>, id: ConnId, fate: Fate, disc': map<FinalizerId, H.Stage>)
    requires DisconnectsMatch(fates, finalizers, disc, processed) && disc'.Keys == disc.Keys
    requires forall f :: f in disc' && disc'[f].Waiting? ==> disc[f].Waiting? && finalizers[f].id != id
    ensures DisconnectsMatch(fates[id := fate], finalizers, disc', processed + multiset{id})
  {
  }

  /** Nobody but the disconnect a trigger came from waits for its reply. */
  lemma OnlyOneWaits(h: H.State, item: H.Item, f: FinalizerId)
    requires H.Chans(h) && h.od.queue != [] && item == h.od.queue[0]
    requires Apart(h.core.finalizers) && H.FinalizerIds(h.core.finalizers) !! h.core.removed
    requires f in h.core.finalizers && h.core.finalizers[f].id == item.id
    ensures f == item.key && H.Awaited(item, h.core.finalizers, h.disc)
  {
    assert h.core.finalizers[f].id in H.FinalizerIds(h.core.finalizers);
  }

  /** What a reply does to the stages: it reaches the one disconnect that waits for it, if any. */
  ghost predicate StagesReplied(t: State) {
    t.h.od.queue != [] && var item := t.h.od.queue[0]; var disc' := H.ReplyTo(t.h, item);
      && t.closing == {} && item.id !in t.disconnects
      && (disc' == if DisconnectWaits(t, item) then t.h.disc[item.key := H.Replied] else t.h.disc)
      && forall f :: f in disc' && disc'[f].Waiting? ==>
           f in t.h.disc && t.h.disc[f].Waiting? && f in t.h.core.finalizers && t.h.core.finalizers[f].id != item.id
  }

  lemma ReplyStages(t: State)
    requires H.Chans(t.h) && Apart(t.h.core.finalizers) && H.FinalizerIds(t.h.core.finalizers) !! t.h.core.removed
    requires Disconnects(t) && t.h.od.queue != [] && t.closing == {}
    ensures StagesReplied(t)
  {
    HeadIsUnprocessed(t.h.od);
    var item := t.h.od.queue[0];
    var disc' := H.ReplyTo(t.h, item);
    forall f | f in disc' && disc'[f].Waiting?
      ensures t.h.disc[f].Waiting? && t.h.core.finalizers[f].id != item.id
    {
      if t.h.core.finalizers[f].id == item.id {
        OnlyOneWaits(t.h, item, f);
      }
    }
  }

  lemma ReplyInv(fates: map<ConnId, Fate>, finalizers: map<FinalizerId, L.Finalizer>, disc: map<FinalizerId, H.Stage>,
                 processed: multiset<ConnId>, closed: bool, active: set<ConnId>, item: H.Item, waits: bool)
    requires DisconnectsInv(fates, {}, finalizers, disc, processed, closed, active) && Apart(finalizers)
    requires item.id !in fates && (waits ==> H.Awaited(item, finalizers, disc))
    requires var disc' := if waits then disc[item.key := H.Replied] else disc;
      forall f :: f in disc' && disc'[f].Waiting? ==> disc[f].Waiting? && finalizers[f].id != item.id
    ensures DisconnectsInv(fates[item.id := if waits then InFlight else Aborted], {}, finalizers,
                           if waits then disc[item.key := H.Replied] else disc,
                           processed + multiset{item.id}, closed, active)
  {
    var disc' := if waits then disc[item.key := H.Replied] else disc;
    ReplyFates(fates, RepliedIds(finalizers, disc), active, item.id, waits);
    if waits {
      RepliedChange(finalizers, disc, item.key, H.Replied);
    }
    assert disc'.Keys == disc.Keys;
    ReplyMatch(fates, finalizers, disc, processed, item.id, if waits then InFlight else Aborted, disc');
  }

  lemma ReplyEffect(t: State)
    requires StagesReplied(t) && Enabled(t, Hook(H.ProcessOnDisconnect))
    ensures var t', item := Apply(t, Hook(H.ProcessOnDisconnect)), t.h.od.queue[0];
      var waits := DisconnectWaits(t, item);
      && t'.disconnects == t.disconnects[item.id := if waits then InFlight else Aborted]
      && t'.h.disc == (if waits then t.h.disc[item.key := H.Replied] else t.h.disc)
      && t'.h.od.processed == t.h.od.processed + multiset{item.id} && t'.h.od.closed == t.h.od.closed
      && t'.h.core == t.h.core && t'.closing == {} && t'.vanished == t.vanished
      && (waits ==> H.Awaited(item, t.h.core.finalizers, t.h.disc))
  {
  }

  lemma ReplyKeepsDisconnects(t: State)
    requires Apart(t.h.core.finalizers) && StagesReplied(t)
    requires Disconnects(t) && Enabled(t, Hook(H.ProcessOnDisconnect))
    ensures Disconnects(Apply(t, Hook(H.ProcessOnDisconnect)))
  {
    ReplyEffect(t);
    var item := t.h.od.queue[0];
    ReplyInv(t.disconnects, t.h.core.finalizers, t.h.disc, t.h.od.processed, t.h.od.closed, ActiveOf(t.h),
             item, DisconnectWaits(t, item));
  }

  lemma UnsentDisconnect(h: H.State, f: FinalizerId)
    requires H.OnDisconnects(h) && H.ChanInv(h.od) && f in h.disc && h.disc[f].ToTrigger?
    ensures h.core.finalizers[f].id !in h.od.processed
  {
    assert h.od.processed <= multiset(h.od.sent);
  }

  /** A disconnect moves on without a reply: it sends its trigger, or its wait times out. */
  lemma StageMoves(fates: map<ConnId, Fate>, closing: set<FinalizerId>, finalizers: map<FinalizerId, L.Finalizer>,
                   disc: map<FinalizerId, H.Stage>, processed: multiset<ConnId>, closed: bool, active: set<ConnId>,
                   f: FinalizerId, stage: H.Stage)
    requires DisconnectsInv(fates, closing, finalizers, disc, processed, closed, active) && Apart(finalizers)
    requires f in disc && (disc[f].ToTrigger? || disc[f].Waiting?) && (stage.Waiting? || stage.Running?)
    requires finalizers[f].id !in fates
    ensures DisconnectsInv(fates, closing, finalizers, disc[f := stage], processed, closed, active)
    ensures stage.Running? && closed ==>
      DisconnectsInv(fates, closing + {f}, finalizers, disc[f := stage], processed, closed, active)
  {
    RepliedChange(finalizers, disc, f, stage);
    assert disc[f := stage].Keys == disc.Keys;
  }

  lemma SendKeepsDisconnects(t: State, f: FinalizerId)
    requires Apart(t.h.core.finalizers) && Disconnects(t) && Enabled(t, Hook(H.SendOnDisconnect(f)))
    requires t.h.core.finalizers[f].id !in t.disconnects
    ensures Disconnects(Apply(t, Hook(H.SendOnDisconnect(f))))
  {
    StageMoves(t.disconnects, t.closing, t.h.core.finalizers, t.h.disc, t.h.od.processed, t.h.od.closed, ActiveOf(t.h),
               f, if t.h.od.closed then H.Running else H.Waiting);
  }

  lemma GiveUpKeepsDisconnects(t: State, f: FinalizerId)
    requires Apart(t.h.core.finalizers) && Disconnects(t) && Enabled(t, Hook(H.GiveUpOnDisconnect(f)))
    ensures Disconnects(Apply(t, Hook(H.GiveUpOnDisconnect(f))))
  {
    StageMoves(t.disconnects, t.closing, t.h.core.finalizers, t.h.disc, t.h.od.processed, t.h.od.closed, ActiveOf(t.h),
               f, H.Running);
  }

  lemma TakenFates(fates: map<ConnId, Fate>, replied: set<ConnId>, active: set<ConnId>, id: ConnId)
    requires DisconnectFates(fates, replied, active) && id in replied && id in active
    ensures DisconnectFates(fates[id := Attached(id)], replied - {id}, active)
  {
  }

  lemma TakenInv(fates: map<ConnId, Fate>, closing: set<FinalizerId>, finalizers: map<FinalizerId, L.Finalizer>,
                 disc: map<FinalizerId, H.Stage>, processed: multiset<ConnId>, closed: bool, active: set<ConnId>,
                 f: FinalizerId)
    requires DisconnectsInv(fates, closing, finalizers, disc, processed, closed, active) && Apart(finalizers)
    requires f in disc && disc[f].Replied? && finalizers[f].id in active
    ensures finalizers[f].id in fates && fates[finalizers[f].id].InFlight?
    ensures DisconnectsInv(fates[finalizers[f].id := Attached(finalizers[f].id)], closing, finalizers,
                           disc[f := H.Running], processed, closed, active)
  {
    RepliedChange(finalizers, disc, f, H.Running);
    TakenFates(fates, RepliedIds(finalizers, disc), active, finalizers[f].id);
    assert disc[f := H.Running].Keys == disc.Keys;
  }

  lemma AttachKeepsDisconnects(t: State, f: FinalizerId)
    requires Apart(t.h.core.finalizers) && L.Claims(t.h.core) && L.Ids(t.h.core)
    requires Disconnects(t) && Enabled(t, Hook(H.AttachOnDisconnect(f)))
    ensures Disconnects(Apply(t, Hook(H.AttachOnDisconnect(f))))
  {
    assert t.h.core.sh.active[t.h.core.finalizers[f].addr].id in L.ActiveIds(t.h.core.sh.active);
    TakenInv(t.disconnects, t.closing, t.h.core.finalizers, t.h.disc, t.h.od.processed, t.h.od.closed,
        ActiveOf(t.h), f);
  }

  /** The end of a disconnect, by completion or by cancellation: a reply in flight is dropped, and
      the connection's tasks are aborted. */
  lemma EndedFates(fates: map<ConnId, Fate>, replied: set<ConnId>, active: set<ConnId>, id: ConnId)
    requires DisconnectFates(fates, replied, active)
    ensures DisconnectFates(Orphaned(Dropped(fates, id), id), replied - {id}, active - {id})
    ensures Orphaned(Dropped(fates, id), id).Keys == fates.Keys
  {
  }

  lemma RepliedGone(finalizers: map<FinalizerId, L.Finalizer>, disc: map<FinalizerId, H.Stage>, f: FinalizerId)
    requires Apart(finalizers) && f in finalizers && f in disc
    ensures RepliedIds(finalizers - {f}, disc - {f}) == RepliedIds(finalizers, disc) - {finalizers[f].id}
  {
    var fs, ds := finalizers - {f}, disc - {f};
    forall id | id in RepliedIds(finalizers, disc) && id != finalizers[f].id
      ensures id in RepliedIds(fs, ds)
    {
      var g :| g in finalizers && g in disc && disc[g].Replied? && finalizers[g].id == id;
      assert fs[g].id == id;
    }
  }

  lemma EndedInv(fates: map<ConnId, Fate>, closing: set<FinalizerId>, finalizers: map<FinalizerId, L.Finalizer>,
                 disc: map<FinalizerId, H.Stage>, processed: multiset<ConnId>, closed: bool, active: set<ConnId>,
                 f: FinalizerId)
    requires DisconnectsInv(fates, closing, finalizers, disc, processed, closed, active) && Apart(finalizers)
    requires f in finalizers
    ensures var id := finalizers[f].id;
      DisconnectsInv(Orphaned(Dropped(fates, id), id), closing - {f}, finalizers - {f}, disc - {f}, processed, closed,
                     active - {id})
    ensures !disc[f].Replied? ==> Dropped(fates, finalizers[f].id) == fates
  {
    var id := finalizers[f].id;
    EndedFates(fates, RepliedIds(finalizers, disc), active, id);
    RepliedGone(finalizers, disc, f);
    RepliedChange(finalizers, disc, f, H.Running);
  }

  /** What the end of a disconnect leaves behind. */
  lemma EndEffect(t: State, c: H.Label)
    requires L.Claims(t.h.core) && Enabled(t, Hook(c)) && (c.EndDisconnect? || c.CancelDisconnect?)
    ensures var t', f := Apply(t, Hook(c)), c.f; var id := t.h.core.finalizers[f].id;
      && t'.h.core.finalizers == t.h.core.finalizers - {f} && t'.h.disc == t.h.disc - {f} && t'.h.od == t.h.od
      && ActiveOf(t'.h) == ActiveOf(t.h) - {id}
      && t'.closing == t.closing - {f} && t'.vanished == t.vanished
      && (c.CancelDisconnect? ==> t'.disconnects == Orphaned(Dropped(t.disconnects, id), id))
      && (c.EndDisconnect? ==> t'.disconnects == Orphaned(t.disconnects, id) && t.h.disc[f].Running?)
  {
    assert t.h.core.finalizers[c.f].addr in t.h.core.sh.active;
  }

  lemma EndKeepsDisconnects(t: State, c: H.Label)
    requires Apart(t.h.core.finalizers) && L.Claims(t.h.core)
    requires Disconnects(t) && Enabled(t, Hook(c)) && (c.EndDisconnect? || c.CancelDisconnect?)
    ensures Disconnects(Apply(t, Hook(c)))
  {
    EndEffect(t, c);
    EndedInv(t.disconnects, t.closing, t.h.core.finalizers, t.h.disc, t.h.od.processed, t.h.od.closed,
        ActiveOf(t.h), c.f);
  }

  lemma ArmedInv(fates: map<ConnId, Fate>, closing: set<FinalizerId>, finalizers: map<FinalizerId, L.Finalizer>,
                 disc: map<FinalizerId, H.Stage>, processed: multiset<ConnId>, closed: bool, active: set<ConnId>,
                 f: FinalizerId, fin: L.Finalizer)
    requires DisconnectsInv(fates, closing, finalizers, disc, processed, closed, active) && f !in finalizers
    ensures DisconnectsInv(fates, closing, finalizers[f := fin], disc[f := H.ToTrigger], processed, closed, active)
  {
    var fs, ds := finalizers[f := fin], disc[f := H.ToTrigger];
    assert RepliedIds(fs, ds) == RepliedIds(finalizers, disc) by {
      forall id | id in RepliedIds(finalizers, disc)
        ensures id in RepliedIds(fs, ds)
      {
        var g :| g in finalizers && g in disc && disc[g].Replied? && finalizers[g].id == id;
        assert fs[g].id == id && ds[g].Replied?;
      }
    }
  }

  lemma ClaimKeepsDisconnects(t: State, c: H.Label)
    requires Disconnects(t) && Enabled(t, Hook(c)) && (c.ClaimDisconnect? || c.AttemptDisconnect?)
    ensures Disconnects(Apply(t, Hook(c)))
  {
    H.ClaimOutcome(t.h, c);
    if L.Claimable(t.h.core.sh, c.addr, if c.ClaimDisconnect? then c.want else None) {
      ArmedInv(t.disconnects, t.closing, t.h.core.finalizers, t.h.disc, t.h.od.processed, t.h.od.closed, ActiveOf(t.h),
               c.f, L.Finalizer(c.addr, t.h.core.sh.active[c.addr].id));
    }
  }

  lemma LettingGoKeepsDisconnects(t: State, f: FinalizerId)
    requires Disconnects(t) && Enabled(t, DropDisconnectReceiver(f))
    ensures Disconnects(Apply(t, DropDisconnectReceiver(f)))
  {
  }

  lemma PlainKeepsFinalizers(core: L.State, c: L.Label)
    requires L.Enabled(core, c) && H.Plain(c)
    ensures L.Apply(core, c).finalizers == core.finalizers
  {
  }

  lemma ConnectLabelsKeepDisconnects(h: H.State, c: H.Label)
    requires H.Enabled(h, c) && H.OfOnConnect(c)
    ensures var h' := H.Apply(h, c); h'.core == h.core && h'.disc == h.disc && h'.od == h.od
  {
  }

  lemma ShutdownLabelsKeepDisconnects(h: H.State, c: H.Label)
    requires H.Enabled(h, c) && H.OfShutdown(c)
    ensures var h' := H.Apply(h, c);
      && h'.core.finalizers == h.core.finalizers && h'.disc == h.disc
      && h'.od.processed == h.od.processed && (h.od.closed ==> h'.od.closed)
  {
  }

  lemma OthersKeepDisconnects(h: H.State, c: H.Label)
    requires H.Enabled(h, c) && !OfDisconnects(c)
    ensures var h' := H.Apply(h, c);
      && h'.core.finalizers == h.core.finalizers && h'.disc == h.disc
      && h'.od.processed == h.od.processed && (h.od.closed ==> h'.od.closed)
  {
    if H.OfOnConnect(c) {
      ConnectLabelsKeepDisconnects(h, c);
    } else if H.OfShutdown(c) {
      ShutdownLabelsKeepDisconnects(h, c);
    } else {
      PlainKeepsFinalizers(h.core, c.l);
    }
  }

  lemma DisconnectsFrame(t: State, t': State)
    requires Disconnects(t)
    requires t'.disconnects == t.disconnects && t'.closing == t.closing && t'.vanished == t.vanished
    requires t'.h.core.finalizers == t.h.core.finalizers && t'.h.disc == t.h.disc
    requires t'.h.od.processed == t.h.od.processed && (t.h.od.closed ==> t'.h.od.closed)
    requires ActiveOf(t.h) <= ActiveOf(t'.h)
    ensures Disconnects(t')
  {
  }

  lemma OtherDisconnectLabels(t: State, c: H.Label)
    requires Enabled(t, Hook(c)) && !OfDisconnects(c)
    ensures var t' := Apply(t, Hook(c));
      t'.disconnects == t.disconnects && t'.closing == t.closing && t'.vanished == t.vanished && t'.h == H.Apply(t.h, c)
  {
  }

  lemma OthersLeaveDisconnects(t: State, c: H.Label)
    requires Disconnects(t) && Enabled(t, Hook(c)) && !OfDisconnects(c)
    ensures Disconnects(Apply(t, Hook(c)))
  {
    OtherDisconnectLabels(t, c);
    OthersKeepActive(t.h, c);
    OthersKeepDisconnects(t.h, c);
    DisconnectsFrame(t, Apply(t, Hook(c)));
  }

  lemma TriggerKeepsDisconnects(t: State, c: H.Label)
    requires H.OnDisconnects(t.h) && H.Gates(t.h) && H.Chans(t.h) && L.Claims(t.h.core)
    requires Apart(t.h.core.finalizers) && H.FinalizerIds(t.h.core.finalizers) !! t.h.core.removed
    requires Disconnects(t) && Enabled(t, Hook(c)) && (c.SendOnDisconnect? || c.ProcessOnDisconnect?)
    ensures Disconnects(Apply(t, Hook(c)))
  {
    if c.SendOnDisconnect? {
      UnsentDisconnect(t.h, c.f);
      SendKeepsDisconnects(t, c.f);
    } else {
      ReplyMeets(t);
      ReplyStages(t);
      ReplyKeepsDisconnects(t);
    }
  }

  lemma EffectKeepsDisconnects(t: State, c: H.Label)
    requires Apart(t.h.core.finalizers) && L.Claims(t.h.core) && L.Ids(t.h.core) && Disconnects(t)
        && Enabled(t, Hook(c))
    requires OfDisconnects(c) && !c.SendOnDisconnect? && !c.ProcessOnDisconnect?
    ensures Disconnects(Apply(t, Hook(c)))
  {
    match c
    case ClaimDisconnect(_, _, _) => ClaimKeepsDisconnects(t, c);
    case AttemptDisconnect(_, _, _) => ClaimKeepsDisconnects(t, c);
    case GiveUpOnDisconnect(f) => GiveUpKeepsDisconnects(t, f);
    case AttachOnDisconnect(f) => AttachKeepsDisconnects(t, f);
    case EndDisconnect(_) => EndKeepsDisconnects(t, c);
    case CancelDisconnect(_) => EndKeepsDisconnects(t, c);
  }

  /** Every step keeps the tasks of the `OnDisconnect` hooks accounted for. */
  lemma DisconnectsStep(t: State, l: Label)
    requires H.OnDisconnects(t.h) && H.Gates(t.h) && H.Chans(t.h) && L.Claims(t.h.core) && L.Ids(t.h.core)
    requires Disconnects(t) && Enabled(t, l)
    ensures Disconnects(Apply(t, l))
  {
    match l
    case DropConnectReceiver(_) => DisconnectsFrame(t, Apply(t, l));
    case DropDisconnectReceiver(f) => LettingGoKeepsDisconnects(t, f);
    case Hook(c) =>
      H.FinalizersApart(t.h.core);
      if c.SendOnDisconnect? || c.ProcessOnDisconnect? {
        TriggerKeepsDisconnects(t, c);
      } else if OfDisconnects(c) {
        EffectKeepsDisconnects(t, c);
      } else {
        OthersLeaveDisconnects(t, c);
      }
  }

  // ---- whole runs --------------------------------------------------------------------------

  ghost predicate Inv(t: State) {
    H.Inv(t.h) && Connects(t) && Disconnects(t)
  }

  lemma StepInv(t: State, l: Label)
    requires Inv(t)
    ensures Inv(Next(t, l))
  {
    Projects(t, l);
    if Enabled(t, l) {
      if l.Hook? {
        H.StepInv(t.h, l.l);
      }
      ConnectsStep(t, l);
      DisconnectsStep(t, l);
    }
  }

  lemma {:induction false} RunInv(cfg: L.Config, abortable: bool, ls: seq<Label>)
    ensures Inv(Exec(Init(cfg, abortable), ls))
    decreases |ls|
  {
    if ls == [] {
      H.InitInv(cfg);
      assert RepliedIds(map[], map[]) == {};
    } else {
      RunInv(cfg, abortable, ls[..|ls| - 1]);
      StepInv(Exec(Init(cfg, abortable), ls[..|ls| - 1]), ls[|ls| - 1]);
    }
  }

  lemma {:induction false} AbortableKept(cfg: L.Config, abortable: bool, ls: seq<Label>)
    ensures Exec(Init(cfg, abortable), ls).abortable == abortable
    decreases |ls|
  {
    if ls != [] {
      AbortableKept(cfg, abortable, ls[..|ls| - 1]);
      Projects(Exec(Init(cfg, abortable), ls[..|ls| - 1]), ls[|ls| - 1]);
    }
  }

  lemma HeadWaits(t: State)
    requires H.Gates(t.h) && H.Chans(t.h) && Connects(t) && t.h.oc.queue != []
    ensures ConnectWaits(t, t.h.oc.queue[0].id) && t.leaving == {}
    ensures Next(t, Hook(H.ProcessOnConnect)).connects == t.connects[t.h.oc.queue[0].id := InFlight]
  {
    ReplyReaches(t);
  }

  // ---- when a hook's task gets away --------------------------------------------------------

  /** The step drops the future of a disconnect whose hook's handle has been sent and not taken. */
  predicate CancelsTooLate(t: State, l: Label) {
    l.Hook? && l.l.CancelDisconnect? && Enabled(t, l) && t.h.disc[l.l.f].Replied?
  }

  ghost function EscapedOf(fates: map<ConnId, Fate>): set<ConnId> {
    set id | id in fates && fates[id].Detached?
  }

  ghost function Escaped(t: State): set<ConnId> { EscapedOf(t.disconnects) }

  /** Only a handle in flight is lost with its receiver; the removal of a connection loses none. */
  lemma EscapedByEnd(fates: map<ConnId, Fate>, id: ConnId)
    ensures EscapedOf(Orphaned(fates, id)) == EscapedOf(fates)
    ensures EscapedOf(Orphaned(Dropped(fates, id), id))
         == EscapedOf(fates) + if id in fates && fates[id].InFlight? then {id} else {}
  {
  }

  lemma InFlightIsReplied(t: State, f: FinalizerId)
    requires Apart(t.h.core.finalizers) && Disconnects(t) && f in t.h.core.finalizers
    ensures var id := t.h.core.finalizers[f].id;
      f in t.h.disc && (t.h.disc[f].Replied? <==> id in t.disconnects && t.disconnects[id].InFlight?)
  {
    RepliedChange(t.h.core.finalizers, t.h.disc, f, H.Running);
  }

  lemma ReplyDetachesNobody(t: State)
    requires StagesReplied(t) && Enabled(t, Hook(H.ProcessOnDisconnect))
    ensures Escaped(Apply(t, Hook(H.ProcessOnDisconnect))) == Escaped(t)
  {
    ReplyEffect(t);
  }

  lemma AttachDetachesNobody(t: State, f: FinalizerId)
    requires Enabled(t, Hook(H.AttachOnDisconnect(f)))
    ensures Escaped(Apply(t, Hook(H.AttachOnDisconnect(f)))) == Escaped(t)
  {
  }

  lemma LettingGoDetachesNobody(t: State, f: FinalizerId)
    requires Disconnects(t) && Enabled(t, DropDisconnectReceiver(f))
    ensures Escaped(Apply(t, DropDisconnectReceiver(f))) == Escaped(t)
  {
  }

  predicate ChangesDisconnects(c: H.Label) {
    c.ProcessOnDisconnect? || c.AttachOnDisconnect? || c.EndDisconnect? || c.CancelDisconnect?
  }

  lemma OthersDetachNobody(t: State, c: H.Label)
    requires Enabled(t, Hook(c)) && !ChangesDisconnects(c)
    ensures Apply(t, Hook(c)).disconnects == t.disconnects
  {
  }

  /** Which tasks get away at a step: that of a disconnect dropped too late, and no other. */
  ghost function GetsAway(t: State, l: Label): set<ConnId> {
    if CancelsTooLate(t, l) then {t.h.core.finalizers[l.l.f].id} else {}
  }

  lemma EndDetaches(t: State, c: H.Label)
    requires Apart(t.h.core.finalizers) && L.Claims(t.h.core) && Disconnects(t) && Enabled(t, Hook(c))
    requires c.EndDisconnect? || c.CancelDisconnect?
    ensures Escaped(Apply(t, Hook(c))) == Escaped(t) + GetsAway(t, Hook(c))
  {
    EndEffect(t, c);
    InFlightIsReplied(t, c.f);
    EscapedByEnd(t.disconnects, t.h.core.finalizers[c.f].id);
  }

  lemma HookDetaches(t: State, c: H.Label)
    requires H.Gates(t.h) && H.Chans(t.h) && L.Claims(t.h.core)
    requires Apart(t.h.core.finalizers) && H.FinalizerIds(t.h.core.finalizers) !! t.h.core.removed
    requires Disconnects(t) && Enabled(t, Hook(c)) && ChangesDisconnects(c)
    ensures Escaped(Apply(t, Hook(c))) == Escaped(t) + GetsAway(t, Hook(c))
  {
    if c.EndDisconnect? || c.CancelDisconnect? {
      EndDetaches(t, c);
    } else if c.AttachOnDisconnect? {
      AttachDetachesNobody(t, c.f);
    } else {
      ReplyMeets(t);
      ReplyStages(t);
      ReplyDetachesNobody(t);
    }
  }

  lemma ReceiverDetachesNobody(t: State, l: Label)
    requires Disconnects(t) && Enabled(t, l) && !l.Hook?
    ensures Escaped(Apply(t, l)) == Escaped(t)
  {
    if l.DropDisconnectReceiver? {
      LettingGoDetachesNobody(t, l.f);
    }
  }

  lemma StepDetaches(t: State, l: Label)
    requires H.Gates(t.h) && H.Chans(t.h) && L.Claims(t.h.core) && L.Ids(t.h.core) && Disconnects(t)
    ensures Escaped(Next(t, l)) == Escaped(t) + GetsAway(t, l)
  {
    if Enabled(t, l) {
      if !l.Hook? {
        ReceiverDetachesNobody(t, l);
      } else if ChangesDisconnects(l.l) {
        H.FinalizersApart(t.h.core);
        HookDetaches(t, l.l);
      } else {
        OthersDetachNobody(t, l.l);
      }
    }
  }

  // ---- the steps of a run in which one does ------------------------------------------------

  const PEER: SocketAddr := SocketAddr(V4(0x7f00_0001), 1)
  const SMALL: L.Config := L.Config(10, 10, 10)

  function Core(c: L.Label): Label { Hook(H.Core(c)) }

  const CHARGED: LimitsView := LimitsView({PEER}, map[V4(0x7f00_0001) := 1])

  /** The node with a reservation; with a connection about to be added; with that connection claimed
      by a disconnect; and with the disconnect's hook processed. */
  const RESERVED: L.State := L.Init(SMALL).(
    sh := L.Shared(map[], CHARGED, false), setups := map[0 := L.Setup(PEER, L.Reserved)])
  const BUILT: L.State := RESERVED.(setups := map[0 := L.Setup(PEER, L.Building(0))], nextId := 1)
  const CLAIMED: L.State := BUILT.(
    sh := L.Shared(map[PEER := L.Entry(0, true)], CHARGED, false), setups := map[0 := L.Setup(PEER, L.Added(0))],
    finalizers := map[0 := L.Finalizer(PEER, 0)], entered := {0})

  const STARTED: State := Init(SMALL, true)
  const DIALLING: State := STARTED.(h := STARTED.h.(core := BUILT, holders := {0}, sched := 1))
  const DISCONNECTING: State := DIALLING.(h := DIALLING.h.(core := CLAIMED, disc := map[0 := H.ToTrigger]))
  const REPLIED: State := DISCONNECTING.(
    h := DISCONNECTING.h.(disc := map[0 := H.Replied], od := H.EMPTY_CHAN.(sent := {0}, processed := multiset{0})),
    disconnects := map[0 := InFlight])

  const PERMITTED: State := STARTED.(
    h := STARTED.h.(core := L.Init(SMALL).(setups := map[0 := L.Setup(PEER, L.Permitted)])))

  lemma Permits()
    ensures Enabled(STARTED, Core(L.AcquirePermit(0, PEER)))
    ensures Next(STARTED, Core(L.AcquirePermit(0, PEER))) == PERMITTED
  {
  }

  lemma ReservesOne()
    ensures Enabled(PERMITTED, Core(L.Reserve(0)))
    ensures Next(PERMITTED, Core(L.Reserve(0))) == STARTED.(h := STARTED.h.(core := RESERVED))
  {
    assert L.Admit(SMALL, PERMITTED.h.core.sh, PEER) == L.Admitted;
    assert Reserved(LimitsView({}, map[]), PEER) == CHARGED;
    assert map[0 := L.Setup(PEER, L.Permitted)][0 := L.Setup(PEER, L.Reserved)] == map[0 := L.Setup(PEER, L.Reserved)];
  }

  lemma ConnectsOne()
    ensures Enabled(STARTED.(h := STARTED.h.(core := RESERVED)), Core(L.NewConnection(0, 0)))
    ensures Next(STARTED.(h := STARTED.h.(core := RESERVED)), Core(L.NewConnection(0, 0)))
         == STARTED.(h := STARTED.h.(core := BUILT))
  {
    assert map[0 := L.Setup(PEER, L.Reserved)][0 := L.Setup(PEER, L.Building(0))]
        == map[0 := L.Setup(PEER, L.Building(0))];
  }

  lemma SchedulesOne()
    ensures Enabled(STARTED.(h := STARTED.h.(core := BUILT)), Hook(H.SchedStart(0)))
    ensures Next(STARTED.(h := STARTED.h.(core := BUILT)), Hook(H.SchedStart(0))) == DIALLING
  {
  }

  const ADDED: State := DIALLING.(h := DIALLING.h.(core := BUILT.(
    sh := L.Shared(map[PEER := L.Entry(0, false)], CHARGED, false),
    setups := map[0 := L.Setup(PEER, L.Added(0))], entered := {0})))

  lemma Adds()
    ensures Next(DIALLING, Core(L.Add(0))) == ADDED
  {
    assert map[0 := L.Setup(PEER, L.Building(0))][0 := L.Setup(PEER, L.Added(0))]
        == map[0 := L.Setup(PEER, L.Added(0))];
  }

  lemma ClaimsOne()
    ensures Enabled(ADDED, Hook(H.ClaimDisconnect(0, PEER, None)))
    ensures Next(ADDED, Hook(H.ClaimDisconnect(0, PEER, None))) == DISCONNECTING
  {
    assert map[PEER := L.Entry(0, false)][PEER := L.Entry(0, true)] == map[PEER := L.Entry(0, true)];
  }

  const SENT: State := DISCONNECTING.(
    h := DISCONNECTING.h.(disc := map[0 := H.Waiting], od := H.EMPTY_CHAN.(queue := [H.Item(0, 0)], sent := {0})))

  lemma SendsOne()
    ensures Enabled(DISCONNECTING, Hook(H.SendOnDisconnect(0)))
    ensures Next(DISCONNECTING, Hook(H.SendOnDisconnect(0))) == SENT
  {
  }

  lemma RepliesOne()
    ensures Enabled(SENT, Hook(H.ProcessOnDisconnect))
    ensures Next(SENT, Hook(H.ProcessOnDisconnect)) == REPLIED
  {
    assert [H.Item(0, 0)][1..] == [];
  }

  lemma RepliedIsLate()
    ensures CancelsTooLate(REPLIED, Hook(H.CancelDisconnect(0)))
    ensures Next(REPLIED, Hook(H.CancelDisconnect(0))).disconnects == map[0 := Detached]
    ensures Next(REPLIED, Hook(H.CancelDisconnect(0))).h.core.sh.active == map[]
  {
  }
}
