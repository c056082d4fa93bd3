/**
 The hook layer at the grain of the source. Two things that `HookPairing` takes as one step are
 taken apart here:

 `Connections::add` checks the shutdown flag and inserts inside one write lock of the active set,
 and a shutdown may begin in between. That is why a setup takes its scheduling guard before `add`.

 A send to a handler's bounded channel waits for a permit, which needs room and an open channel;
 with the permit it claims a slot, and only then writes it. The handler cannot pass a slot that is
 not written.

 Every run at this grain is shown to be a run of `HookTasks`, and so of `HookPairing`, with `add`
 taken at its check and a send at its claim. What is proved of all those runs is restated here.
 */
module HookRefinement {
  import opened Util
  import L = Lifecycle
  import H = HookPairing
  import T = HookTasks
  import A = AddRefinement

  type SetupId = L.SetupId
  type ConnId = L.ConnId
  type FinalizerId = L.FinalizerId

  /** Sends to one channel that are under way: who holds a permit, and whose slot is not written. */
  datatype Sends<K> = Sends(permits: set<K>, unwritten: set<K>)

  datatype State = State(
    t: T.State,
    adding: Option<SetupId>,
    capacity: nat,
    connects: Sends<ConnId>,
    disconnects: Sends<FinalizerId>
  )

  datatype Label =
    | Other(l: T.Label)
    | CheckFlag(s: SetupId)
    | Insert
    | TakeConnectPermit(id: ConnId)
    | WriteConnect(id: ConnId)
    | TakeDisconnectPermit(f: FinalizerId)
    | WriteDisconnect(f: FinalizerId)

  function Init(cfg: L.Config, abortable: bool, capacity: nat): State {
    State(T.Init(cfg, abortable), None, capacity, Sends({}, {}), Sends({}, {}))
  }

  // ---- the steps ---------------------------------------------------------------------------

  /** The step takes the lock of the active set. A scheduling task does only to attach a handle. */
  predicate NeedsActive(t: T.State, c: H.Label) {
    || (c.Core? && c.l.Reserve?)
    || c.ClaimDisconnect? || c.AttemptDisconnect? || c.AttachOnDisconnect? || c.EndDisconnect? || c.CancelDisconnect?
    || c.TakeSnapshot? || c.PassActive?
    || (c.FinishSched? && t.abortable && c.id in t.connects && t.connects[c.id].InFlight?)
  }

  /** Nobody is inside `add`, or the step neither needs the lock nor belongs to that setup. */
  predicate LockAllows(r: State, c: H.Label) {
    && !(c.Core? && c.l.Add?)
    && (r.adding.Some? ==> !NeedsActive(r.t, c) && !(c.Core? && A.IsOf(c.l, r.adding.value)))
  }

  /** The channels' part: a slot is claimed with a permit, or the send fails because the channel is
      closed; only written slots are received; and a send that has its permit runs to its end. */
  predicate ChannelAllows(r: State, c: H.Label) {
    var h := r.t.h;
    match c
    case SendOnConnect(id) => id in r.connects.permits || h.oc.closed
    case ProcessOnConnect => h.oc.queue != [] && h.oc.queue[0].id !in r.connects.unwritten
    case GiveUpOnConnect(id) => id !in r.connects.unwritten
    case SendOnDisconnect(f) => f in r.disconnects.permits || h.od.closed
    case ProcessOnDisconnect => h.od.queue != [] && h.od.queue[0].key !in r.disconnects.unwritten
    case GiveUpOnDisconnect(f) => f !in r.disconnects.unwritten
    case CancelDisconnect(f) => f !in r.disconnects.permits && f !in r.disconnects.unwritten
    case _ => true
  }

  predicate CanTake<K>(s: Sends<K>, ch: H.Chan, capacity: nat, key: K) {
    key !in s.permits && !ch.closed && |ch.queue| + |s.permits| < capacity
  }

  predicate Enabled(r: State, l: Label) {
    var h := r.t.h;
    match l
    case Other(c) => T.Enabled(r.t, c) && (c.Hook? ==> LockAllows(r, c.l) && ChannelAllows(r, c.l))
    case CheckFlag(s) => r.adding.None? && A.CanInsert(h.core, s) && s in h.holders
    case Insert => r.adding.Some? && A.CanInsert(h.core, r.adding.value)
    case TakeConnectPermit(id) =>
      id in h.tasks && h.tasks[id].stage.ToTrigger? && CanTake(r.connects, h.oc, r.capacity, id)
    case WriteConnect(id) => id in r.connects.unwritten
    case TakeDisconnectPermit(f) =>
      f in h.disc && h.disc[f].ToTrigger? && CanTake(r.disconnects, h.od, r.capacity, f)
    case WriteDisconnect(f) => f in r.disconnects.unwritten
  }

  /** A claimed slot is yet to be written; a send into a closed channel leaves none. */
  function Claimed<K>(s: Sends<K>, ch: H.Chan, key: K): Sends<K> {
    Sends(s.permits - {key}, if ch.closed then s.unwritten else s.unwritten + {key})
  }

  function WithCore(t: T.State, core: L.State): T.State { t.(h := t.h.(core := core)) }

  function Apply(r: State, l: Label): State
    requires Enabled(r, l)
  {
    var h := r.t.h;
    match l
    case Other(c) =>
      var r' := r.(t := T.Apply(r.t, c));
      if c.Hook? && c.l.SendOnConnect? then
        r'.(connects := Claimed(r.connects, h.oc, c.l.id))
      else if c.Hook? && c.l.SendOnDisconnect? then
        r'.(disconnects := Claimed(r.disconnects, h.od, c.l.f))
      else r'
    case CheckFlag(s) =>
      if h.core.sh.underway then r.(t := WithCore(r.t, L.AddStep(h.core, s))) else r.(adding := Some(s))
    case Insert => r.(t := WithCore(r.t, A.Inserted(h.core, r.adding.value)), adding := None)
    case TakeConnectPermit(id) => r.(connects := r.connects.(permits := r.connects.permits + {id}))
    case WriteConnect(id) => r.(connects := r.connects.(unwritten := r.connects.unwritten - {id}))
    case TakeDisconnectPermit(f) => r.(disconnects := r.disconnects.(permits := r.disconnects.permits + {f}))
    case WriteDisconnect(f) => r.(disconnects := r.disconnects.(unwritten := r.disconnects.unwritten - {f}))
  }

  function Next(r: State, l: Label): State {
    if Enabled(r, l) then Apply(r, l) else r
  }

  function Exec(r: State, ls: seq<Label>): State
    decreases |ls|
  {
    if ls == [] then r else Next(Exec(r, ls[..|ls| - 1]), ls[|ls| - 1])
  }

  // ---- the insertion commutes with what may happen beside it -------------------------------

  function InsertedIn(t: T.State, s: SetupId): T.State
    requires A.CanInsert(t.h.core, s)
  {
    WithCore(t, A.Inserted(t.h.core, s))
  }

  function HInserted(h: H.State, s: SetupId): H.State
    requires A.CanInsert(h.core, s)
  {
    h.(core := A.Inserted(h.core, s))
  }

  lemma CoreCommutes(h: H.State, s: SetupId, c: L.Label)
    requires A.CanInsert(h.core, s) && H.Enabled(h, H.Core(c)) && !c.Add? && !c.Reserve? && !A.IsOf(c, s)
    ensures A.CanInsert(H.Apply(h, H.Core(c)).core, s)
    ensures H.Enabled(HInserted(h, s), H.Core(c))
    ensures H.Apply(HInserted(h, s), H.Core(c)) == HInserted(H.Apply(h, H.Core(c)), s)
  {
    A.OthersCommute(h.core, s, c);
  }

  lemma SchedulingCommutes(h: H.State, s: SetupId, c: H.Label)
    requires A.CanInsert(h.core, s) && s in h.holders && H.Enabled(h, c) && H.OfOnConnect(c)
    ensures H.Apply(h, c).core == h.core && H.Enabled(HInserted(h, s), c)
    ensures H.Apply(HInserted(h, s), c) == HInserted(H.Apply(h, c), s)
  {
  }

  predicate Beside(c: H.Label) {
    || c.SendOnDisconnect? || c.ProcessOnDisconnect? || c.GiveUpOnDisconnect?
    || c.PassSched? || c.Signal? || c.CloseOnConnect? || c.CloseOnDisconnect? || c.DropOnConnect? || c.DropOnDisconnect?
  }

  lemma BesideCommutes(h: H.State, s: SetupId, c: H.Label)
    requires A.CanInsert(h.core, s) && H.Enabled(h, c) && Beside(c)
    ensures H.Apply(h, c).core == h.core && H.Enabled(HInserted(h, s), c)
    ensures H.Apply(HInserted(h, s), c) == HInserted(H.Apply(h, c), s)
  {
  }

  lemma AbortCommutes(h: H.State, s: SetupId, k: L.CallerId)
    requires A.CanInsert(h.core, s) && H.Enabled(h, H.HardAbort(k))
    ensures A.CanInsert(H.Apply(h, H.HardAbort(k)).core, s) && H.Enabled(HInserted(h, s), H.HardAbort(k))
    ensures H.Apply(HInserted(h, s), H.HardAbort(k)) == HInserted(H.Apply(h, H.HardAbort(k)), s)
  {
  }

  predicate Free(t: T.State, s: SetupId, c: H.Label) {
    !(c.Core? && c.l.Add?) && !NeedsActive(t, c) && !(c.Core? && A.IsOf(c.l, s))
  }

  lemma HookCommutes(t: T.State, s: SetupId, c: H.Label)
    requires A.CanInsert(t.h.core, s) && s in t.h.holders && H.Enabled(t.h, c) && Free(t, s, c)
    ensures A.CanInsert(H.Apply(t.h, c).core, s) && H.Enabled(HInserted(t.h, s), c)
    ensures H.Apply(HInserted(t.h, s), c) == HInserted(H.Apply(t.h, c), s)
  {
    if c.Core? {
      CoreCommutes(t.h, s, c.l);
    } else if H.OfOnConnect(c) {
      SchedulingCommutes(t.h, s, c);
    } else if c.HardAbort? {
      AbortCommutes(t.h, s, c.k);
    } else {
      BesideCommutes(t.h, s, c);
    }
  }

  /** The fates of the hooks' tasks do not depend on the insertion either. */
  lemma FatesCommute(t: T.State, s: SetupId, c: H.Label)
    requires A.CanInsert(t.h.core, s) && T.Enabled(t, T.Hook(c)) && Free(t, s, c)
    requires H.Enabled(HInserted(t.h, s), c)
    ensures T.Enabled(InsertedIn(t, s), T.Hook(c))
    ensures T.Apply(InsertedIn(t, s), T.Hook(c))
         == T.Apply(t, T.Hook(c)).(h := H.Apply(HInserted(t.h, s), c))
  {
  }

  lemma StepCommutes(t: T.State, s: SetupId, l: T.Label)
    requires A.CanInsert(t.h.core, s) && s in t.h.holders && T.Enabled(t, l) && (l.Hook? ==> Free(t, s, l.l))
    ensures A.CanInsert(T.Apply(t, l).h.core, s) && T.Enabled(InsertedIn(t, s), l)
    ensures T.Apply(InsertedIn(t, s), l) == InsertedIn(T.Apply(t, l), s)
  {
    if l.Hook? {
      HookCommutes(t, s, l.l);
      FatesCommute(t, s, l.l);
      T.Projects(t, l);
    }
  }

  /** A setup inside `add` keeps its scheduling guard. */
  lemma HolderStays(t: T.State, s: SetupId, l: T.Label)
    requires A.CanInsert(t.h.core, s) && s in t.h.holders && T.Enabled(t, l)
    ensures s in T.Apply(t, l).h.holders
  {
    T.Projects(t, l);
    if l.Hook? {
      GuardStays(t.h, s, l.l);
    }
  }

  lemma GuardStays(h: H.State, s: SetupId, c: H.Label)
    requires A.CanInsert(h.core, s) && s in h.holders && H.Enabled(h, c)
    ensures s in H.Apply(h, c).holders
  {
  }

  // ---- the simulation ----------------------------------------------------------------------

  /** What the layers below see: an insertion under way has happened. */
  function Abs(r: State): T.State {
    if r.adding.Some? && A.CanInsert(r.t.h.core, r.adding.value) then InsertedIn(r.t, r.adding.value) else r.t
  }

  function Meaning(r: State, l: Label): seq<T.Label> {
    if !Enabled(r, l) then []
    else match l
      case Other(c) => [c]
      case CheckFlag(s) => [T.Hook(H.Core(L.Add(s)))]
      case _ => []
  }

  function Linearized(r: State, ls: seq<Label>): seq<T.Label>
    decreases |ls|
  {
    if ls == [] then [] else
      var init := ls[..|ls| - 1];
      Linearized(r, init) + Meaning(Exec(r, init), ls[|ls| - 1])
  }

  /** Whoever is inside `add` is a setup about to insert, with its scheduling guard. */
  predicate AddingInv(r: State) {
    r.adding.Some? ==> A.CanInsert(r.t.h.core, r.adding.value) && r.adding.value in r.t.h.holders
  }

  lemma OtherSimulates(r: State, c: T.Label)
    requires AddingInv(r) && Enabled(r, Other(c))
    ensures AddingInv(Apply(r, Other(c))) && Abs(Apply(r, Other(c))) == T.Next(Abs(r), c)
  {
    assert Apply(r, Other(c)).t == T.Apply(r.t, c) && Apply(r, Other(c)).adding == r.adding;
    if r.adding.Some? {
      StepCommutes(r.t, r.adding.value, c);
      HolderStays(r.t, r.adding.value, c);
    }
  }

  lemma CheckSimulates(r: State, s: SetupId)
    requires Enabled(r, CheckFlag(s))
    ensures AddingInv(Apply(r, CheckFlag(s)))
    ensures Abs(Apply(r, CheckFlag(s))) == T.Next(Abs(r), T.Hook(H.Core(L.Add(s))))
  {
    if !r.t.h.core.sh.underway {
      A.InsertionIsAdd(r.t.h.core, s);
    }
  }

  lemma StepSimulates(r: State, l: Label)
    requires AddingInv(r)
    ensures AddingInv(Next(r, l))
    ensures Abs(Next(r, l)) == if Meaning(r, l) == [] then Abs(r) else T.Next(Abs(r), Meaning(r, l)[0])
  {
    if Enabled(r, l) {
      match l
      case Other(c) => OtherSimulates(r, c);
      case CheckFlag(s) => CheckSimulates(r, s);
      case _ =>
    }
  }

  lemma OneMore(t: T.State, ls: seq<T.Label>, more: seq<T.Label>)
    requires |more| <= 1
    ensures T.Exec(t, ls + more) == if more == [] then T.Exec(t, ls) else T.Next(T.Exec(t, ls), more[0])
  {
    if more == [] {
      assert ls + more == ls;
    } else {
      assert (ls + more)[..|ls|] == ls;
    }
  }

  /** Every run at this grain is a run of the layers below. */
  lemma {:induction false} RunSimulates(cfg: L.Config, abortable: bool, capacity: nat, ls: seq<Label>)
    ensures var r := Exec(Init(cfg, abortable, capacity), ls);
      AddingInv(r) && Abs(r) == T.Exec(T.Init(cfg, abortable), Linearized(Init(cfg, abortable, capacity), ls))
    decreases |ls|
  {
    if ls != [] {
      var start, init := Init(cfg, abortable, capacity), ls[..|ls| - 1];
      RunSimulates(cfg, abortable, capacity, init);
      StepSimulates(Exec(start, init), ls[|ls| - 1]);
      OneMore(T.Init(cfg, abortable), Linearized(start, init), Meaning(Exec(start, init), ls[|ls| - 1]));
    }
  }

  lemma {:induction false} AbsInv(cfg: L.Config, abortable: bool, capacity: nat, ls: seq<Label>)
    ensures var r := Exec(Init(cfg, abortable, capacity), ls); AddingInv(r) && T.Inv(Abs(r))
  {
    RunSimulates(cfg, abortable, capacity, ls);
    T.RunInv(cfg, abortable, Linearized(Init(cfg, abortable, capacity), ls));
  }

  // ---- pairing, at this grain --------------------------------------------------------------

  lemma AddingIsActive(r: State)
    requires AddingInv(r) && r.adding.Some?
    ensures r.t.h.core.setups[r.adding.value].addr in Abs(r).h.core.sh.active
  {
  }

  lemma DrainedMeansNobodyAdds(r: State)
    requires AddingInv(r) && Abs(r).h.core.sh.active == map[]
    ensures r.adding.None? && Abs(r) == r.t
  {
    if r.adding.Some? {
      AddingIsActive(r);
    }
  }

  /** The pairing guarantee: when the handlers are told to wind down in a run that was not voided,
      every connection that ever entered has had both triggers processed exactly once, nothing else
      was processed, and none was lost; a shutdown that began inside `add` included. */
  lemma {:induction false} HooksPair(cfg: L.Config, abortable: bool, capacity: nat, ls: seq<Label>)
    requires var h := Exec(Init(cfg, abortable, capacity), ls).t.h; h.signaled && !h.voided
    ensures H.Paired(Exec(Init(cfg, abortable, capacity), ls).t.h)
  {
    var r := Exec(Init(cfg, abortable, capacity), ls);
    AbsInv(cfg, abortable, capacity, ls);
    H.SignaledIsPaired(Abs(r).h);
    DrainedMeansNobodyAdds(r);
  }

  /** A connection being inserted has had no trigger of either kind. */
  lemma AddingIsUnheard(r: State)
    requires AddingInv(r) && H.Inv(Abs(r).h) && r.adding.Some?
    ensures var h, id := r.t.h, r.t.h.core.setups[r.adding.value].phase.id;
      id !in h.oc.sent && id !in h.od.sent && h.oc.sent <= h.core.entered && h.od.sent <= h.core.entered
  {
    var h, a, s := r.t.h, Abs(r).h, r.adding.value;
    var addr, id := h.core.setups[s].addr, h.core.setups[s].phase.id;
    H.SentHaveEntered(a);
    assert a.core.setups[s].phase.id in H.Pending(a);
    assert a.core.sh.active[addr] == L.Entry(id, false);
    H.UnclaimedIsFresh(a.core, addr);
  }

  lemma SentAtThisGrain(r: State)
    requires AddingInv(r) && H.Inv(Abs(r).h)
    ensures r.t.h.oc.sent <= r.t.h.core.entered && r.t.h.od.sent <= r.t.h.core.entered
  {
    if r.adding.Some? {
      AddingIsUnheard(r);
    } else {
      H.SentHaveEntered(r.t.h);
    }
  }

  /** In every run, voided or not, a connection gets at most one trigger of either kind, and only
      once it has entered. */
  lemma {:induction false} HooksAtMostOnce(cfg: L.Config, abortable: bool, capacity: nat, ls: seq<Label>)
    ensures var h := Exec(Init(cfg, abortable, capacity), ls).t.h;
      h.oc.processed <= multiset(h.core.entered) && h.od.processed <= multiset(h.core.entered)
  {
    var r := Exec(Init(cfg, abortable, capacity), ls);
    AbsInv(cfg, abortable, capacity, ls);
    SentAtThisGrain(r);
    H.ProcessedWithin(r.t.h.oc, r.t.h.core.entered);
    H.ProcessedWithin(r.t.h.od, r.t.h.core.entered);
  }

  /** As long as a run is not voided, no trigger is ever sent into a closed channel. */
  lemma {:induction false} NoTriggerIsLost(cfg: L.Config, abortable: bool, capacity: nat, ls: seq<Label>)
    requires !Exec(Init(cfg, abortable, capacity), ls).t.h.voided
    ensures var h := Exec(Init(cfg, abortable, capacity), ls).t.h; h.oc.lost == {} && h.od.lost == {}
  {
    AbsInv(cfg, abortable, capacity, ls);
  }

  // ---- the hooks' tasks, at this grain -----------------------------------------------------

  /** An entry that an insertion does not make was there before. */
  lemma InsertionAddsOne(core: L.State, s: SetupId, id: ConnId)
    requires A.CanInsert(core, s) && id != core.setups[s].phase.id
    requires id in L.ActiveIds(A.Inserted(core, s).sh.active)
    ensures id in L.ActiveIds(core.sh.active)
  {
    var active' := A.Inserted(core, s).sh.active;
    var a :| a in active' && active'[a].id == id;
    assert a != core.setups[s].addr;
    assert core.sh.active[a].id == id;
  }

  /** A connection that has had a trigger, and was not removed, has its entry in the active set. */
  lemma HeardIsActive(r: State, id: ConnId)
    requires AddingInv(r) && T.Inv(Abs(r)) && id in T.ActiveOf(Abs(r).h)
    requires id in r.t.h.oc.sent || id in r.t.h.od.sent
    ensures id in L.ActiveIds(r.t.h.core.sh.active)
  {
    T.ActiveAreActive(Abs(r).h.core);
    if r.adding.Some? {
      AddingIsUnheard(r);
      InsertionAddsOne(r.t.h.core, r.adding.value, id);
    }
  }

  lemma FatesAtThisGrain(r: State, id: ConnId)
    requires AddingInv(r) && T.Inv(Abs(r)) && id in r.t.connects
    ensures match r.t.connects[id]
      case InFlight => id in r.t.h.tasks && r.t.h.tasks[id].stage.Replied? && id !in r.t.leaving
      case Attached(owner) =>
        r.t.abortable && owner == id && id in L.ActiveIds(r.t.h.core.sh.active) && id !in r.t.h.core.removed
      case Aborted => r.t.abortable
      case Detached => !r.t.abortable
  {
    assert id in r.t.h.oc.processed && r.t.h.oc.processed <= multiset(r.t.h.oc.sent);
    SentAtThisGrain(r);
    if r.t.connects[id].Attached? {
      HeardIsActive(r, id);
    }
  }

  /** In every run, voided or not, the processed `OnConnect` triggers are those that have a task. An
      abortable task has its handle on the way to its scheduling task, is attached to its own
      connection, which is active, or is aborted; it never escapes. One that is not abortable is
      never aborted. */
  lemma {:induction false} TasksAttachToTheirOwn(cfg: L.Config, abortable: bool, capacity: nat, ls: seq<Label>,
                                                 id: ConnId)
    ensures var t := Exec(Init(cfg, abortable, capacity), ls).t;
      && (id in t.connects <==> id in t.h.oc.processed)
      && (id in t.connects ==>
            match t.connects[id]
            case InFlight => id in t.h.tasks && t.h.tasks[id].stage.Replied? && id !in t.leaving
            case Attached(owner) =>
              abortable && owner == id && id in L.ActiveIds(t.h.core.sh.active) && id !in t.h.core.removed
            case Aborted => abortable
            case Detached => !abortable)
  {
    var r := Exec(Init(cfg, abortable, capacity), ls);
    AbsInv(cfg, abortable, capacity, ls);
    RunSimulates(cfg, abortable, capacity, ls);
    T.AbortableKept(cfg, abortable, Linearized(Init(cfg, abortable, capacity), ls));
    if id in r.t.connects {
      FatesAtThisGrain(r, id);
    }
  }

  /** Once its connection is gone and its scheduling is over, an abortable task has been aborted. */
  lemma {:induction false} TasksDieWithTheirConnection(cfg: L.Config, capacity: nat, ls: seq<Label>, id: ConnId)
    requires var t := Exec(Init(cfg, true, capacity), ls).t;
      id in t.connects && id in t.h.core.removed && id !in t.h.tasks
    ensures Exec(Init(cfg, true, capacity), ls).t.connects[id] == T.Aborted
  {
    TasksAttachToTheirOwn(cfg, true, capacity, ls, id);
  }

  /** In every run, the handler of a processed `OnConnect` trigger finds somebody waiting for its
      reply: the branch that deals with a failed reply is never taken. */
  lemma {:induction false} NobodyRepliesInVain(cfg: L.Config, abortable: bool, capacity: nat, ls: seq<Label>)
    requires Exec(Init(cfg, abortable, capacity), ls).t.h.oc.queue != []
    ensures var t := Exec(Init(cfg, abortable, capacity), ls).t;
      T.ConnectWaits(t, t.h.oc.queue[0].id) && t.leaving == {}
  {
    AbsInv(cfg, abortable, capacity, ls);
    T.HeadWaits(Abs(Exec(Init(cfg, abortable, capacity), ls)));
  }

  lemma DisconnectFatesAtThisGrain(r: State, id: ConnId)
    requires AddingInv(r) && T.Inv(Abs(r)) && id in r.t.disconnects
    ensures match r.t.disconnects[id]
      case InFlight => id in T.RepliedIds(r.t.h.core.finalizers, r.t.h.disc)
      case Attached(owner) => owner == id && id in L.ActiveIds(r.t.h.core.sh.active)
      case _ => true
  {
    assert id in r.t.h.od.processed && r.t.h.od.processed <= multiset(r.t.h.od.sent);
    SentAtThisGrain(r);
    if r.t.disconnects[id].Attached? {
      HeardIsActive(r, id);
    }
  }

  /** In every run, the processed `OnDisconnect` triggers are those that have a task. Its handle is on
      the way to its disconnect, or it is attached to its own active connection, or it was aborted or
      dropped; and no disconnect ever finds the connection it claimed gone. */
  lemma {:induction false} DisconnectTasksAreAccounted(cfg: L.Config, abortable: bool, capacity: nat, ls: seq<Label>,
                                                       id: ConnId)
    ensures var t := Exec(Init(cfg, abortable, capacity), ls).t;
      && !t.vanished
      && (id in t.disconnects <==> id in t.h.od.processed)
      && (id in t.disconnects ==>
            match t.disconnects[id]
            case InFlight => id in T.RepliedIds(t.h.core.finalizers, t.h.disc)
            case Attached(owner) => owner == id && id in L.ActiveIds(t.h.core.sh.active)
            case _ => true)
  {
    var r := Exec(Init(cfg, abortable, capacity), ls);
    AbsInv(cfg, abortable, capacity, ls);
    if id in r.t.disconnects {
      DisconnectFatesAtThisGrain(r, id);
    }
  }

  /** What a step lets get away: the hook's task of a disconnect dropped with its reply in flight. */
  ghost function GetsAway(r: State, l: Label): set<ConnId> {
    if l.Other? && Enabled(r, l) then T.GetsAway(r.t, l.l) else {}
  }

  lemma AbsEscapes(r: State)
    ensures T.Escaped(Abs(r)) == T.Escaped(r.t)
  {
  }

  lemma SameGetAway(r: State, l: Label)
    requires AddingInv(r)
    ensures GetsAway(r, l) == if Meaning(r, l) == [] then {} else T.GetsAway(Abs(r), Meaning(r, l)[0])
  {
  }

  lemma AbsDetaches(a: T.State, m: T.Label)
    requires T.Inv(a)
    ensures T.Escaped(T.Next(a, m)) == T.Escaped(a) + T.GetsAway(a, m)
  {
    T.StepDetaches(a, m);
  }

  lemma StepDetaches(r: State, l: Label)
    requires AddingInv(r)
    requires forall m :: T.Escaped(T.Next(Abs(r), m)) == T.Escaped(Abs(r)) + T.GetsAway(Abs(r), m)
    ensures T.Escaped(Next(r, l).t) == T.Escaped(r.t) + GetsAway(r, l)
  {
    StepSimulates(r, l);
    SameGetAway(r, l);
    AbsEscapes(r);
    AbsEscapes(Next(r, l));
  }

  lemma {:induction false} RunDetaches(cfg: L.Config, abortable: bool, capacity: nat, ls: seq<Label>, l: Label)
    ensures var r := Exec(Init(cfg, abortable, capacity), ls);
      T.Escaped(Next(r, l).t) == T.Escaped(r.t) + GetsAway(r, l)
  {
    var r := Exec(Init(cfg, abortable, capacity), ls);
    AbsInv(cfg, abortable, capacity, ls);
    forall m
      ensures T.Escaped(T.Next(Abs(r), m)) == T.Escaped(Abs(r)) + T.GetsAway(Abs(r), m)
    {
      AbsDetaches(Abs(r), m);
    }
    StepDetaches(r, l);
  }

  /** Some step of the run lets the task of connection `id` get away. */
  ghost predicate LateSomewhere(start: State, ls: seq<Label>, id: ConnId)
    decreases |ls|
  {
    ls != [] &&
    (LateSomewhere(start, ls[..|ls| - 1], id) || id in GetsAway(Exec(start, ls[..|ls| - 1]), ls[|ls| - 1]))
  }

  /** The task of a connection's `OnDisconnect` hook is left running unowned if and only if its
      disconnect was dropped between the handler's reply and the disconnect's taking it. */
  lemma {:induction false} DetachedExactly(cfg: L.Config, abortable: bool, capacity: nat, ls: seq<Label>, id: ConnId)
    ensures id in T.Escaped(Exec(Init(cfg, abortable, capacity), ls).t)
      <==> LateSomewhere(Init(cfg, abortable, capacity), ls, id)
    decreases |ls|
  {
    if ls != [] {
      DetachedExactly(cfg, abortable, capacity, ls[..|ls| - 1], id);
      RunDetaches(cfg, abortable, capacity, ls[..|ls| - 1], ls[|ls| - 1]);
    }
  }

  // ---- who enters once a shutdown has begun ------------------------------------------------

  /** While somebody is inside `add`, no shutdown has its snapshot. */
  ghost predicate SnapshotsWait(r: State) {
    r.adding.Some? ==> r.t.h.core.callers == map[]
  }

  lemma CallersFrame(t: T.State, l: T.Label)
    requires T.Enabled(t, l) && t.h.core.callers == map[] && (l.Hook? ==> !l.l.TakeSnapshot? && !l.l.AttemptDisconnect?)
    ensures T.Apply(t, l).h.core.callers == map[]
  {
    T.Projects(t, l);
    if l.Hook? {
      H.Projects(t.h, l.l);
      var p := H.Projected(l.l);
      if p.Some? && L.Enabled(t.h.core, p.value) {
        L.CallersFrame(t.h.core, p.value);
      }
    }
  }

  lemma SnapshotsWaitStep(r: State, l: Label)
    requires SnapshotsWait(r) && AddingInv(r) && (r.adding.None? ==> L.Shutdown(r.t.h.core))
    ensures SnapshotsWait(Next(r, l))
  {
    if Enabled(r, l) && l.Other? && r.adding.Some? {
      CallersFrame(r.t, l.l);
    }
  }

  lemma {:induction false} SnapshotsAlwaysWait(cfg: L.Config, abortable: bool, capacity: nat, ls: seq<Label>)
    ensures SnapshotsWait(Exec(Init(cfg, abortable, capacity), ls))
    decreases |ls|
  {
    if ls != [] {
      var init := ls[..|ls| - 1];
      SnapshotsAlwaysWait(cfg, abortable, capacity, init);
      AbsInv(cfg, abortable, capacity, init);
      SnapshotsWaitStep(Exec(Init(cfg, abortable, capacity), init), ls[|ls| - 1]);
    }
  }

  /** The flag is up and nobody got past it. */
  predicate Shut(r: State) { r.adding.None? && r.t.h.core.sh.underway }

  lemma CoreShut(core: L.State, c: L.Label)
    requires core.sh.underway && L.Enabled(core, c)
    ensures L.Apply(core, c).sh.underway && L.Apply(core, c).entered == core.entered
  {
    L.EnteredFrame(core, c);
    L.ShrinkStep(core, c);
  }

  lemma HooksShut(t: T.State, l: T.Label)
    requires t.h.core.sh.underway && T.Enabled(t, l)
    ensures T.Apply(t, l).h.core.sh.underway && T.Apply(t, l).h.core.entered == t.h.core.entered
  {
    T.Projects(t, l);
    if l.Hook? {
      H.Projects(t.h, l.l);
      var p := H.Projected(l.l);
      if p.Some? && L.Enabled(t.h.core, p.value) {
        CoreShut(t.h.core, p.value);
      }
    }
  }

  lemma ShutStep(r: State, l: Label)
    requires Shut(r)
    ensures Shut(Next(r, l)) && Next(r, l).t.h.core.entered == r.t.h.core.entered
  {
    if l.Other? && Enabled(r, l) {
      HooksShut(r.t, l.l);
    }
  }

  lemma {:induction false} ShutRun(r: State, more: seq<Label>)
    requires Shut(r)
    ensures Shut(Exec(r, more)) && Exec(r, more).t.h.core.entered == r.t.h.core.entered
    decreases |more|
  {
    if more != [] {
      ShutRun(r, more[..|more| - 1]);
      ShutStep(Exec(r, more[..|more| - 1]), more[|more| - 1]);
    }
  }

  /** From a shutdown's snapshot on, no connection enters, through any continuation. */
  lemma {:induction false} NoneEntersAfterTheSnapshot(cfg: L.Config, abortable: bool, capacity: nat, ls: seq<Label>,
                                                      more: seq<Label>, k: L.CallerId)
    requires k in Exec(Init(cfg, abortable, capacity), ls).t.h.core.callers
    ensures var r := Exec(Init(cfg, abortable, capacity), ls); Exec(r, more).t.h.core.entered == r.t.h.core.entered
  {
    var r := Exec(Init(cfg, abortable, capacity), ls);
    SnapshotsAlwaysWait(cfg, abortable, capacity, ls);
    assert r.adding.None?;
    AbsInv(cfg, abortable, capacity, ls);
    ShutRun(r, more);
  }

  /** The connection has not entered, the flag is up, and it is not the one being inserted. */
  predicate Barred(r: State, id: ConnId) {
    && r.t.h.core.sh.underway && id !in r.t.h.core.entered
    && (r.adding.Some? ==>
          A.CanInsert(r.t.h.core, r.adding.value) && r.t.h.core.setups[r.adding.value].phase.id != id)
  }

  lemma SetupStays(core: L.State, s: SetupId, c: L.Label)
    requires A.CanInsert(core, s) && L.Enabled(core, c) && !c.Add? && !A.NeedsActive(c) && !A.IsOf(c, s)
    ensures s in L.Apply(core, c).setups && L.Apply(core, c).setups[s] == core.setups[s]
  {
  }

  lemma AddingStays(t: T.State, s: SetupId, l: T.Label)
    requires A.CanInsert(t.h.core, s) && T.Enabled(t, l) && (l.Hook? ==> Free(t, s, l.l))
    ensures s in T.Apply(t, l).h.core.setups && T.Apply(t, l).h.core.setups[s] == t.h.core.setups[s]
  {
    T.Projects(t, l);
    if l.Hook? {
      H.Projects(t.h, l.l);
      var p := H.Projected(l.l);
      if p.Some? && L.Enabled(t.h.core, p.value) {
        SetupStays(t.h.core, s, p.value);
      }
    }
  }

  lemma BarredStep(r: State, l: Label, id: ConnId)
    requires Barred(r, id)
    ensures Barred(Next(r, l), id)
  {
    if l.Other? && Enabled(r, l) {
      HooksShut(r.t, l.l);
      if r.adding.Some? {
        AddingStays(r.t, r.adding.value, l.l);
      }
    }
  }

  lemma {:induction false} BarredForGood(r: State, more: seq<Label>, id: ConnId)
    requires Barred(r, id)
    ensures Barred(Exec(r, more), id)
    decreases |more|
  {
    if more != [] {
      BarredForGood(r, more[..|more| - 1], id);
      BarredStep(Exec(r, more[..|more| - 1]), more[|more| - 1], id);
    }
  }

  /** The connection is the one being inserted. */
  predicate BeingInserted(r: State, id: ConnId) {
    r.adding.Some? && r.adding.value in r.t.h.core.setups && r.t.h.core.setups[r.adding.value].phase.HasId()
    && r.t.h.core.setups[r.adding.value].phase.id == id
  }

  lemma InsertLetsIn(r: State, id: ConnId)
    requires AddingInv(r) && BeingInserted(r, id)
    ensures id in Exec(r, [Insert]).t.h.core.entered
  {
    assert [Insert] == [] + [Insert];
    ExecSnoc(r, [], Insert);
  }

  lemma EntersIffInside(r: State, id: ConnId)
    requires AddingInv(r) && r.t.h.core.sh.underway && id !in r.t.h.core.entered
    ensures (exists more :: id in Exec(r, more).t.h.core.entered) <==> BeingInserted(r, id)
  {
    if BeingInserted(r, id) {
      InsertLetsIn(r, id);
    } else {
      forall more
        ensures id !in Exec(r, more).t.h.core.entered
      {
        BarredForGood(r, more, id);
      }
    }
  }

  lemma {:induction false} AddingRun(cfg: L.Config, abortable: bool, capacity: nat, ls: seq<Label>)
    ensures AddingInv(Exec(Init(cfg, abortable, capacity), ls))
  {
    RunSimulates(cfg, abortable, capacity, ls);
  }

  /** Who still enters once the flag is up: the connection that is being inserted at that moment, if
      there is one, and no other. */
  lemma {:induction false} EntersExactlyIfInside(cfg: L.Config, abortable: bool, capacity: nat, ls: seq<Label>,
                                                 id: ConnId)
    requires var r := Exec(Init(cfg, abortable, capacity), ls);
      r.t.h.core.sh.underway && id !in r.t.h.core.entered
    ensures var r := Exec(Init(cfg, abortable, capacity), ls);
      (exists more :: id in Exec(r, more).t.h.core.entered) <==> BeingInserted(r, id)
  {
    AddingRun(cfg, abortable, capacity, ls);
    EntersIffInside(Exec(Init(cfg, abortable, capacity), ls), id);
  }

  lemma LateIsBarred(r: State, s: SetupId)
    requires AddingInv(r) && L.SetupIds(Abs(r).h.core) && r.t.h.core.sh.underway
    requires Enabled(r, Other(T.Hook(H.SchedStart(s))))
    ensures Barred(r, r.t.h.core.setups[s].phase.id)
  {
    assert Abs(r).h.core.setups[s] == r.t.h.core.setups[s];
  }

  /** A setup that takes its scheduling guard while the flag is up never gets its connection in,
      through any continuation. */
  lemma {:induction false} LateSetupsAreRefused(cfg: L.Config, abortable: bool, capacity: nat, ls: seq<Label>,
                                                s: SetupId, more: seq<Label>)
    requires var r := Exec(Init(cfg, abortable, capacity), ls);
      r.t.h.core.sh.underway && Enabled(r, Other(T.Hook(H.SchedStart(s))))
    ensures var r := Exec(Init(cfg, abortable, capacity), ls);
      r.t.h.core.setups[s].phase.id !in Exec(Next(r, Other(T.Hook(H.SchedStart(s)))), more).t.h.core.entered
  {
    var r, l := Exec(Init(cfg, abortable, capacity), ls), Other(T.Hook(H.SchedStart(s)));
    var id := r.t.h.core.setups[s].phase.id;
    AbsInv(cfg, abortable, capacity, ls);
    LateIsBarred(r, s);
    BarredStep(r, l, id);
    BarredForGood(Next(r, l), more, id);
  }

  // ---- the channels ------------------------------------------------------------------------

  /** A channel holds no more than its capacity, sends under way included. */
  ghost predicate Bounded(r: State) {
    && |r.t.h.oc.queue| + |r.connects.permits| <= r.capacity
    && |r.t.h.od.queue| + |r.disconnects.permits| <= r.capacity
  }

  /** Permits are held for triggers yet to be sent, and unwritten slots for triggers sent and awaited. */
  ghost predicate PermitsInv(r: State) {
    && (forall id :: id in r.connects.permits ==> id in r.t.h.tasks && r.t.h.tasks[id].stage.ToTrigger?)
    && (forall f :: f in r.disconnects.permits ==> f in r.t.h.disc && r.t.h.disc[f].ToTrigger?)
    && (forall id :: id in r.connects.unwritten ==> id in r.t.h.tasks && r.t.h.tasks[id].stage.Waiting?)
    && (forall f :: f in r.disconnects.unwritten ==> f in r.t.h.disc && r.t.h.disc[f].Waiting?)
  }

  /** How a step of the hook layer changes the queues: one send, one receive, or a drop. */
  lemma QueueStep(h: H.State, c: H.Label)
    requires H.Enabled(h, c)
    ensures var h' := H.Apply(h, c);
      && |h'.oc.queue| <= |h.oc.queue| + (if c.SendOnConnect? && !h.oc.closed then 1 else 0)
      && |h'.od.queue| <= |h.od.queue| + (if c.SendOnDisconnect? && !h.od.closed then 1 else 0)
  {
  }

  lemma OtherBounded(r: State, c: T.Label)
    requires Bounded(r) && Enabled(r, Other(c))
    ensures Bounded(Apply(r, Other(c)))
  {
    T.Projects(r.t, c);
    if c.Hook? {
      QueueStep(r.t.h, c.l);
    }
  }

  lemma BoundedStep(r: State, l: Label)
    requires Bounded(r)
    ensures Bounded(Next(r, l))
  {
    if Enabled(r, l) && l.Other? {
      OtherBounded(r, l.l);
    }
  }

  /** In every run the channels keep to their capacity. */
  lemma {:induction false} ChannelsAreBounded(cfg: L.Config, abortable: bool, capacity: nat, ls: seq<Label>)
    ensures Bounded(Exec(Init(cfg, abortable, capacity), ls))
    decreases |ls|
  {
    if ls != [] {
      ChannelsAreBounded(cfg, abortable, capacity, ls[..|ls| - 1]);
      BoundedStep(Exec(Init(cfg, abortable, capacity), ls[..|ls| - 1]), ls[|ls| - 1]);
    }
  }

  lemma ConnectTriggersStay(h: H.State, c: H.Label, id: ConnId)
    requires H.Enabled(h, c) && id in h.tasks && h.tasks[id].stage.ToTrigger? && c != H.SendOnConnect(id)
    ensures var tasks' := H.TasksAfter(h, c); id in tasks' && tasks'[id].stage.ToTrigger?
  {
  }

  lemma DisconnectTriggersStay(h: H.State, c: H.Label, f: FinalizerId)
    requires H.Enabled(h, c) && f in h.disc && h.disc[f].ToTrigger?
    requires c != H.SendOnDisconnect(f) && c != H.CancelDisconnect(f)
    ensures var disc' := H.DiscAfter(h, c); f in disc' && disc'[f].ToTrigger?
  {
  }

  /** A sent trigger stays awaited until it is processed or given up. */
  lemma ConnectWaitsStay(r: State, c: H.Label, id: ConnId)
    requires H.Enabled(r.t.h, c) && ChannelAllows(r, c)
    requires id in r.connects.unwritten && id in r.t.h.tasks && r.t.h.tasks[id].stage.Waiting?
    requires c.SpawnSched? ==> r.t.h.core.setups[c.s].phase.id !in r.t.h.tasks
    ensures var tasks' := H.TasksAfter(r.t.h, c); id in tasks' && tasks'[id].stage.Waiting?
  {
  }

  lemma DisconnectWaitsStay(r: State, c: H.Label, f: FinalizerId)
    requires H.Enabled(r.t.h, c) && ChannelAllows(r, c)
    requires f in r.disconnects.unwritten && f in r.t.h.disc && r.t.h.disc[f].Waiting?
    requires r.t.h.disc.Keys == r.t.h.core.finalizers.Keys
    ensures var disc' := H.DiscAfter(r.t.h, c); f in disc' && disc'[f].Waiting?
  {
  }

  /** What `PermitsInv` needs of the layers below: disconnects go with finalizers, and a setup that
      spawns its scheduling task is the first to do so. */
  ghost predicate Fresh(h: H.State, c: H.Label) {
    && h.disc.Keys == h.core.finalizers.Keys
    && (c.SpawnSched? && H.Enabled(h, c) ==> h.core.setups[c.s].phase.id !in h.tasks)
  }

  lemma ConnectSendsKept(r: State, c: H.Label)
    requires PermitsInv(r) && Enabled(r, Other(T.Hook(c))) && Fresh(r.t.h, c)
    ensures var r', tasks' := Apply(r, Other(T.Hook(c))), H.TasksAfter(r.t.h, c);
      && (forall id :: id in r'.connects.permits ==> id in tasks' && tasks'[id].stage.ToTrigger?)
      && (forall id :: id in r'.connects.unwritten ==> id in tasks' && tasks'[id].stage.Waiting?)
  {
    forall id | id in r.connects.permits && c != H.SendOnConnect(id)
      ensures var tasks' := H.TasksAfter(r.t.h, c); id in tasks' && tasks'[id].stage.ToTrigger?
    {
      ConnectTriggersStay(r.t.h, c, id);
    }
    forall id | id in r.connects.unwritten
      ensures var tasks' := H.TasksAfter(r.t.h, c); id in tasks' && tasks'[id].stage.Waiting?
    {
      ConnectWaitsStay(r, c, id);
    }
  }

  lemma DisconnectSendsKept(r: State, c: H.Label)
    requires PermitsInv(r) && Enabled(r, Other(T.Hook(c))) && Fresh(r.t.h, c)
    ensures var r', disc' := Apply(r, Other(T.Hook(c))), H.DiscAfter(r.t.h, c);
      && (forall f :: f in r'.disconnects.permits ==> f in disc' && disc'[f].ToTrigger?)
      && (forall f :: f in r'.disconnects.unwritten ==> f in disc' && disc'[f].Waiting?)
  {
    forall f | f in r.disconnects.permits && c != H.SendOnDisconnect(f)
      ensures var disc' := H.DiscAfter(r.t.h, c); f in disc' && disc'[f].ToTrigger?
    {
      DisconnectTriggersStay(r.t.h, c, f);
    }
    forall f | f in r.disconnects.unwritten
      ensures var disc' := H.DiscAfter(r.t.h, c); f in disc' && disc'[f].Waiting?
    {
      DisconnectWaitsStay(r, c, f);
    }
  }

  lemma PermitsStep(r: State, l: Label)
    requires PermitsInv(r) && (l.Other? && l.l.Hook? ==> Fresh(r.t.h, l.l.l))
    ensures PermitsInv(Next(r, l))
  {
    if Enabled(r, l) && l.Other? && l.l.Hook? {
      T.Projects(r.t, l.l);
      ConnectSendsKept(r, l.l.l);
      DisconnectSendsKept(r, l.l.l);
    }
  }

  lemma SpawningIsNotAdding(r: State, s: SetupId)
    requires AddingInv(r) && H.Enabled(r.t.h, H.SpawnSched(s))
    ensures H.Enabled(Abs(r).h, H.SpawnSched(s)) && Abs(r).h.core.setups[s] == r.t.h.core.setups[s]
    ensures Abs(r).h.tasks == r.t.h.tasks
  {
  }

  /** A setup that spawns its scheduling task is not the one inside `add`, and the first to do so. */
  lemma FreshAtThisGrain(r: State, c: H.Label)
    requires AddingInv(r) && H.OnConnects(Abs(r).h) && H.OnDisconnects(Abs(r).h) && L.SetupIds(Abs(r).h.core)
    ensures Fresh(r.t.h, c)
  {
    if c.SpawnSched? && H.Enabled(r.t.h, c) {
      SpawningIsNotAdding(r, c.s);
      H.SpawnedIsNew(Abs(r).h, c.s);
    }
  }

  lemma {:induction false} PermitsRun(cfg: L.Config, abortable: bool, capacity: nat, ls: seq<Label>)
    ensures PermitsInv(Exec(Init(cfg, abortable, capacity), ls))
    decreases |ls|
  {
    if ls != [] {
      var init, l := ls[..|ls| - 1], ls[|ls| - 1];
      PermitsRun(cfg, abortable, capacity, init);
      AbsInv(cfg, abortable, capacity, init);
      if l.Other? && l.l.Hook? {
        FreshAtThisGrain(Exec(Init(cfg, abortable, capacity), init), l.l.l);
      }
      PermitsStep(Exec(Init(cfg, abortable, capacity), init), l);
    }
  }

  /** A shutdown signals the handlers only when no send is under way, with a permit or with a slot
      claimed and not written: the channels that it then closes have nobody in the middle of one. */
  lemma {:induction false} NoSendAtTheSignal(cfg: L.Config, abortable: bool, capacity: nat, ls: seq<Label>)
    requires Exec(Init(cfg, abortable, capacity), ls).t.h.signaled
    ensures var r := Exec(Init(cfg, abortable, capacity), ls);
      && r.connects.permits == {} && r.disconnects.permits == {}
      && r.connects.unwritten == {} && r.disconnects.unwritten == {}
  {
    var r := Exec(Init(cfg, abortable, capacity), ls);
    AbsInv(cfg, abortable, capacity, ls);
    PermitsRun(cfg, abortable, capacity, ls);
    NobodyLeftToSend(Abs(r).h);
  }

  lemma NobodyLeftToSend(h: H.State)
    requires H.Inv(h) && h.signaled
    ensures h.tasks == map[] && h.disc == map[]
  {
    H.OwnedEntries(h.core);
    assert h.tasks.Keys == {} && h.disc.Keys == {};
  }

  // ---- a run that lets a hook's task get away ----------------------------------------------

  lemma ExecSnoc(r: State, ls: seq<Label>, l: Label)
    ensures Exec(r, ls + [l]) == Next(Exec(r, ls), l)
  {
    assert (ls + [l])[..|ls|] == ls;
  }

  /** Steps that neither add nor send or receive are the steps of the layer below. */
  lemma PlainStep(r: State, c: H.Label)
    requires r.adding.None? && T.Enabled(r.t, T.Hook(c)) && LockAllows(r, c) && ChannelAllows(r, c)
    requires !c.SendOnConnect? && !c.SendOnDisconnect?
    ensures Next(r, Other(T.Hook(c))) == r.(t := T.Next(r.t, T.Hook(c)))
  {
  }

  const FIRST: State := Init(T.SMALL, true, 1)
  const ALONE: State := FIRST.(t := T.DIALLING)
  const ENTERED: State := FIRST.(t := T.ADDED)
  const LEFT: State := FIRST.(t := T.DISCONNECTING)
  const PERMITTED: State := LEFT.(disconnects := Sends({0}, {}))
  const CLAIMED: State := FIRST.(t := T.SENT, disconnects := Sends({}, {0}))
  const ANSWERED: State := FIRST.(t := T.REPLIED)

  function Dials(): seq<Label> {
    [Other(T.Core(L.AcquirePermit(0, T.PEER)))] + [Other(T.Core(L.Reserve(0)))] + [Other(T.Core(L.NewConnection(0, 0)))]
    + [Other(T.Hook(H.SchedStart(0)))]
  }

  function Enters(): seq<Label> {
    Dials() + [CheckFlag(0)] + [Insert] + [Other(T.Hook(H.ClaimDisconnect(0, T.PEER, None)))]
  }

  function LateCancellation(): seq<Label> {
    Enters() + [TakeDisconnectPermit(0)] + [Other(T.Hook(H.SendOnDisconnect(0)))] + [WriteDisconnect(0)]
    + [Other(T.Hook(H.ProcessOnDisconnect))]
  }

  lemma DialsAlone()
    ensures Exec(FIRST, Dials()) == ALONE
  {
    var a, b := Other(T.Core(L.AcquirePermit(0, T.PEER))), Other(T.Core(L.Reserve(0)));
    var c, d := Other(T.Core(L.NewConnection(0, 0))), Other(T.Hook(H.SchedStart(0)));
    T.Permits();
    T.ReservesOne();
    T.ConnectsOne();
    T.SchedulesOne();
    assert [a] == [] + [a];
    ExecSnoc(FIRST, [], a);
    ExecSnoc(FIRST, [a], b);
    ExecSnoc(FIRST, [a] + [b], c);
    ExecSnoc(FIRST, [a] + [b] + [c], d);
    PlainStep(FIRST, H.Core(L.AcquirePermit(0, T.PEER)));
    PlainStep(FIRST.(t := T.PERMITTED), H.Core(L.Reserve(0)));
    PlainStep(FIRST.(t := T.STARTED.(h := T.STARTED.h.(core := T.RESERVED))), H.Core(L.NewConnection(0, 0)));
    PlainStep(FIRST.(t := T.STARTED.(h := T.STARTED.h.(core := T.BUILT))), H.SchedStart(0));
  }

  lemma InsertsOne()
    ensures Next(Next(ALONE, CheckFlag(0)), Insert) == ENTERED
  {
    A.InsertionIsAdd(T.BUILT, 0);
    T.Adds();
  }

  lemma EntersAndLeaves()
    ensures Exec(FIRST, Enters()) == LEFT
  {
    var claim := Other(T.Hook(H.ClaimDisconnect(0, T.PEER, None)));
    DialsAlone();
    InsertsOne();
    T.ClaimsOne();
    PlainStep(ENTERED, H.ClaimDisconnect(0, T.PEER, None));
    ExecSnoc(FIRST, Dials(), CheckFlag(0));
    ExecSnoc(FIRST, Dials() + [CheckFlag(0)], Insert);
    ExecSnoc(FIRST, Dials() + [CheckFlag(0)] + [Insert], claim);
  }

  lemma SendsOne()
    ensures Next(LEFT, TakeDisconnectPermit(0)) == PERMITTED
    ensures Next(PERMITTED, Other(T.Hook(H.SendOnDisconnect(0)))) == CLAIMED
    ensures Next(CLAIMED, WriteDisconnect(0)) == FIRST.(t := T.SENT)
  {
    T.SendsOne();
  }

  lemma AnswersOne()
    ensures Exec(FIRST, LateCancellation()) == ANSWERED
  {
    var send, process := Other(T.Hook(H.SendOnDisconnect(0))), Other(T.Hook(H.ProcessOnDisconnect));
    EntersAndLeaves();
    SendsOne();
    T.RepliesOne();
    PlainStep(FIRST.(t := T.SENT), H.ProcessOnDisconnect);
    ExecSnoc(FIRST, Enters(), TakeDisconnectPermit(0));
    ExecSnoc(FIRST, Enters() + [TakeDisconnectPermit(0)], send);
    ExecSnoc(FIRST, Enters() + [TakeDisconnectPermit(0)] + [send], WriteDisconnect(0));
    ExecSnoc(FIRST, Enters() + [TakeDisconnectPermit(0)] + [send] + [WriteDisconnect(0)], process);
  }

  /** The promise that a cancelled hook does not run on detached fails here: the reply is under way
      when the disconnect is dropped, the connection is removed, and the hook's task is nobody's. */
  lemma LateCancellationDetaches()
    ensures var r, l := Exec(Init(T.SMALL, true, 1), LateCancellation()), Other(T.Hook(H.CancelDisconnect(0)));
      && GetsAway(r, l) == {0}
      && Next(r, l).t.disconnects == map[0 := T.Detached] && Next(r, l).t.h.core.sh.active == map[]
  {
    AnswersOne();
    T.RepliedIsLate();
    PlainStep(ANSWERED, H.CancelDisconnect(0));
  }
}
