/**
 The map of outbound message senders, as a layer over the connection lifecycle.

 The Writing handler publishes a connection's sender while the connection is being set up; the
 map is keyed by address and each entry is tagged with its connection's id. A writer task's
 cleanup removes the entry only if the tag is its own. The disconnect finalizer removes
 whatever is there, and the publication overwrites whatever is there: both rely on the
 exclusivity of the address.

 That exclusivity is lost when a setup is abandoned, its future dropped, between handing the
 connection to the Writing handler and getting it back: the handler's job then publishes for an
 address that others may have taken. The module says exactly which steps break the map, shows
 a run in which one does, and proves that none can unless a setup was abandoned there.
 */
module SenderMap {
  import opened Util
  import opened Net
  import opened Limits
  import L = Lifecycle

  type SetupId = L.SetupId
  type ConnId = L.ConnId
  type FinalizerId = L.FinalizerId

  /** The Writing handler's setup task for one connection. */
  datatype Job = Job(addr: SocketAddr, spawned: bool)

  datatype State = State(
    core: L.State,
    senders: map<SocketAddr, ConnId>,
    jobs: map<ConnId, Job>,
    returned: set<ConnId>,
    writers: map<ConnId, SocketAddr>,
    cleared: set<FinalizerId>,
    abandoned: bool
  )

  datatype Label =
    | Core(l: L.Label)
    | TriggerWriting(s: SetupId)
    | SpawnWriter(id: ConnId)
    | Publish(id: ConnId)
    | FailJob(id: ConnId)
    | EndWriter(id: ConnId)
    | ClearSender(f: FinalizerId)

  function Init(cfg: L.Config): State {
    State(L.Init(cfg), map[], map[], {}, map[], {}, false)
  }

  predicate Enabled(w: State, l: Label) {
    match l
    case Core(c) =>
      && L.Enabled(w.core, c)
      && (c.Add? ==> w.core.setups[c.s].phase.id in w.returned)
      && (c.FinalizerDrop? ==> c.f in w.cleared)
    case TriggerWriting(s) =>
      && s in w.core.setups && w.core.setups[s].phase.Building?
      && w.core.setups[s].phase.id !in w.jobs && w.core.setups[s].phase.id !in w.returned
    case SpawnWriter(id) => id in w.jobs && !w.jobs[id].spawned
    case Publish(id) => id in w.jobs && w.jobs[id].spawned
    case FailJob(id) => id in w.jobs
    case EndWriter(id) => id in w.writers
    case ClearSender(f) => f in w.core.finalizers && f !in w.cleared
  }

  /** The setup `s` is waiting for the Writing handler. */
  predicate AwaitsWriting(w: State, s: SetupId) {
    s in w.core.setups && w.core.setups[s].phase.Building? && w.core.setups[s].phase.id in w.jobs
  }

  /** The writer's cleanup: only an entry tagged with the writer's own id is removed. */
  function CleanedUp(senders: map<SocketAddr, ConnId>, addr: SocketAddr, id: ConnId): map<SocketAddr, ConnId> {
    if addr in senders && senders[addr] == id then senders - {addr} else senders
  }

  function Apply(w: State, l: Label): State
    requires Enabled(w, l)
  {
    match l
    case Core(c) =>
      w.(core := L.Apply(w.core, c),
         cleared := if c.FinalizerDrop? then w.cleared - {c.f} else w.cleared,
         abandoned := w.abandoned || (c.DropGuard? && AwaitsWriting(w, c.s)))
    case TriggerWriting(s) =>
      w.(jobs := w.jobs[w.core.setups[s].phase.id := Job(w.core.setups[s].addr, false)])
    case SpawnWriter(id) =>
      w.(jobs := w.jobs[id := w.jobs[id].(spawned := true)], writers := w.writers[id := w.jobs[id].addr])
    case Publish(id) =>
      w.(senders := w.senders[w.jobs[id].addr := id], jobs := w.jobs - {id}, returned := w.returned + {id})
    case FailJob(id) => w.(jobs := w.jobs - {id})
    case EndWriter(id) =>
      w.(senders := CleanedUp(w.senders, w.writers[id], id), writers := w.writers - {id})
    case ClearSender(f) =>
      w.(senders := w.senders - {w.core.finalizers[f].addr}, cleared := w.cleared + {f})
  }

  function Next(w: State, l: Label): State {
    if Enabled(w, l) then Apply(w, l) else w
  }

  function Exec(w: State, ls: seq<Label>): State
    decreases |ls|
  {
    if ls == [] then w else Next(Exec(w, ls[..|ls| - 1]), ls[|ls| - 1])
  }

  // ---- the property ----------------------------------------------------------------------

  /** `id` occupies `addr` with a running writer: as an active connection nobody is tearing
      down, or as a setup that has its connection back from the Writing handler. */
  ghost predicate Occupies(w: State, addr: SocketAddr, id: ConnId) {
    && id in w.writers
    && (|| (addr in w.core.sh.active && w.core.sh.active[addr] == L.Entry(id, false))
        || (id in w.returned && exists s :: s in w.core.setups && w.core.setups[s] == L.Setup(addr, L.Building(id))))
  }

  /** Whoever occupies an address finds its own sender there. */
  ghost predicate SendersMatch(w: State) {
    forall addr, id :: Occupies(w, addr, id) ==> addr in w.senders && w.senders[addr] == id
  }

  /** The step publishes over the sender of somebody else who occupies the address. */
  ghost predicate Clobbers(w: State, l: Label) {
    && l.Publish? && Enabled(w, l)
    && exists id :: id != l.id && Occupies(w, w.jobs[l.id].addr, id)
  }

  // ---- the supporting invariant ----------------------------------------------------------

  /** Jobs and returned connections belong to setups that have an id, and to connections that
      are or were set up; a job is not returned yet. */
  ghost predicate JobsInv(w: State) {
    && (forall id :: id in w.jobs ==> id < w.core.nextId && id !in w.returned)
    && (forall id :: id in w.returned ==> id < w.core.nextId)
    && (forall s :: s in w.core.setups && w.core.setups[s].phase.Building? && w.core.setups[s].phase.id in w.jobs
         ==> w.jobs[w.core.setups[s].phase.id].addr == w.core.setups[s].addr)
    && w.core.entered <= w.returned
  }

  /** Unless a setup was abandoned, every job still has its setup waiting. */
  ghost predicate AwaitedInv(w: State) {
    !w.abandoned ==> forall id :: id in w.jobs ==>
      exists s :: s in w.core.setups && w.core.setups[s] == L.Setup(w.jobs[id].addr, L.Building(id))
  }

  ghost predicate Inv(w: State) {
    L.Inv(w.core) && JobsInv(w) && AwaitedInv(w)
  }

  lemma InitInv(cfg: L.Config)
    ensures Inv(Init(cfg))
  {
    L.InitInv(cfg);
  }

  /** A setup being built stays that way until it is added or dropped. */
  lemma BuildingStays(core: L.State, c: L.Label, s: SetupId)
    requires L.Enabled(core, c) && s in core.setups && core.setups[s].phase.Building? && c != L.Add(s)
        && c != L.DropGuard(s)
    ensures var core' := L.Apply(core, c); s in core'.setups && core'.setups[s] == core.setups[s]
  {
  }

  /** A setup being built was so before, or has just got an id never used before. */
  lemma BuildingWas(core: L.State, c: L.Label, s: SetupId)
    requires L.Enabled(core, c)
    requires var core' := L.Apply(core, c); s in core'.setups && core'.setups[s].phase.Building?
    ensures var core' := L.Apply(core, c);
      || (s in core.setups && core'.setups[s] == core.setups[s])
      || core.nextId <= core'.setups[s].phase.id
  {
  }

  lemma NextIdGrows(core: L.State, c: L.Label)
    requires L.Enabled(core, c)
    ensures core.nextId <= L.Apply(core, c).nextId
  {
  }

  lemma CoreJobs(w: State, c: L.Label)
    requires JobsInv(w) && Enabled(w, Core(c))
    ensures JobsInv(Apply(w, Core(c)))
  {
    NextIdGrows(w.core, c);
    L.EnteredFrame(w.core, c);
    var w' := Apply(w, Core(c));
    forall s | s in w'.core.setups && w'.core.setups[s].phase.Building? && w'.core.setups[s].phase.id in w'.jobs
      ensures w'.jobs[w'.core.setups[s].phase.id].addr == w'.core.setups[s].addr
    {
      BuildingWas(w.core, c, s);
    }
  }

  lemma CoreAwaited(w: State, c: L.Label)
    requires JobsInv(w) && AwaitedInv(w) && Enabled(w, Core(c))
    ensures AwaitedInv(Apply(w, Core(c)))
  {
    var w' := Apply(w, Core(c));
    if !w'.abandoned {
      forall id | id in w.jobs
        ensures exists s :: s in w'.core.setups && w'.core.setups[s] == L.Setup(w'.jobs[id].addr, L.Building(id))
      {
        var s :| s in w.core.setups && w.core.setups[s] == L.Setup(w.jobs[id].addr, L.Building(id));
        assert AwaitsWriting(w, s);
        BuildingStays(w.core, c, s);
      }
    }
  }

  lemma JobStep(w: State, l: Label)
    requires JobsInv(w) && L.SetupIds(w.core) && Enabled(w, l) && !l.Core?
    ensures JobsInv(Apply(w, l))
  {
  }

  lemma AwaitedStep(w: State, l: Label)
    requires AwaitedInv(w) && Enabled(w, l) && !l.Core?
    ensures AwaitedInv(Apply(w, l))
  {
    var w' := Apply(w, l);
    if !w.abandoned {
      forall id | id in w'.jobs
        ensures exists s :: s in w'.core.setups && w'.core.setups[s] == L.Setup(w'.jobs[id].addr, L.Building(id))
      {
        if id in w.jobs {
          var s :| s in w.core.setups && w.core.setups[s] == L.Setup(w.jobs[id].addr, L.Building(id));
          assert w'.core.setups[s] == L.Setup(w'.jobs[id].addr, L.Building(id));
        } else {
          assert w'.core.setups[l.s] == L.Setup(w'.jobs[id].addr, L.Building(id));
        }
      }
    }
  }

  lemma StepInv(w: State, l: Label)
    requires Inv(w)
    ensures Inv(Next(w, l))
  {
    if Enabled(w, l) {
      if l.Core? {
        L.StepInv(w.core, l.l);
        CoreJobs(w, l.l);
        CoreAwaited(w, l.l);
      } else {
        JobStep(w, l);
        AwaitedStep(w, l);
      }
    }
  }

  lemma {:induction false} RunInv(cfg: L.Config, ls: seq<Label>)
    ensures Inv(Exec(Init(cfg), ls))
    decreases |ls|
  {
    if ls == [] {
      InitInv(cfg);
    } else {
      RunInv(cfg, ls[..|ls| - 1]);
      StepInv(Exec(Init(cfg), ls[..|ls| - 1]), ls[|ls| - 1]);
    }
  }

  // ---- which steps keep the map right ----------------------------------------------------

  /** After a lifecycle step, whoever occupies an address occupied it before. */
  lemma CoreOccupies(w: State, c: L.Label, addr: SocketAddr, id: ConnId)
    requires JobsInv(w) && Enabled(w, Core(c)) && Occupies(Apply(w, Core(c)), addr, id)
    ensures Occupies(w, addr, id)
  {
    var w' := Apply(w, Core(c));
    if addr in w'.core.sh.active && w'.core.sh.active[addr] == L.Entry(id, false) {
      ActiveOccupies(w, c, addr, id);
    } else {
      var s :| s in w'.core.setups && w'.core.setups[s] == L.Setup(addr, L.Building(id));
      BuildingWas(w.core, c, s);
      assert s in w.core.setups && w.core.setups[s] == L.Setup(addr, L.Building(id));
    }
  }

  lemma ActiveOccupies(w: State, c: L.Label, addr: SocketAddr, id: ConnId)
    requires Enabled(w, Core(c)) && id in w.writers
    requires var active := L.Apply(w.core, c).sh.active; addr in active && active[addr] == L.Entry(id, false)
    ensures Occupies(w, addr, id)
  {
    if c.Add? && !w.core.sh.underway && addr == w.core.setups[c.s].addr {
      assert w.core.setups[c.s] == L.Setup(addr, L.Building(id));
    }
  }

  lemma CoreKeeps(w: State, c: L.Label)
    requires JobsInv(w) && SendersMatch(w) && Enabled(w, Core(c))
    ensures SendersMatch(Apply(w, Core(c)))
  {
    forall addr, id | Occupies(Apply(w, Core(c)), addr, id)
      ensures addr in w.senders && w.senders[addr] == id
    {
      CoreOccupies(w, c, addr, id);
    }
  }

  /** A job's connection has not entered the active set. */
  lemma JobIsNotActive(w: State, id: ConnId, addr: SocketAddr)
    requires JobsInv(w) && L.Ids(w.core) && id in w.jobs
    ensures addr in w.core.sh.active ==> w.core.sh.active[addr].id != id
  {
    if addr in w.core.sh.active {
      assert w.core.sh.active[addr].id in L.ActiveIds(w.core.sh.active);
    }
  }

  /** So a writer that starts adds no occupant. */
  lemma StartKeeps(w: State, id: ConnId)
    requires JobsInv(w) && SendersMatch(w) && L.Ids(w.core) && Enabled(w, SpawnWriter(id))
    ensures SendersMatch(Apply(w, SpawnWriter(id)))
  {
    var w' := Apply(w, SpawnWriter(id));
    forall addr, i | Occupies(w', addr, i)
      ensures addr in w'.senders && w'.senders[addr] == i
    {
      JobIsNotActive(w, id, addr);
      assert Occupies(w, addr, i);
    }
  }

  lemma EndKeeps(w: State, id: ConnId)
    requires SendersMatch(w) && Enabled(w, EndWriter(id))
    ensures SendersMatch(Apply(w, EndWriter(id)))
  {
    var w' := Apply(w, EndWriter(id));
    forall addr, i | Occupies(w', addr, i)
      ensures addr in w'.senders && w'.senders[addr] == i
    {
      assert Occupies(w, addr, i);
    }
  }

  /** The ungated removal finds nobody else: the address is held by a claimed connection. */
  lemma ClearKeeps(w: State, f: FinalizerId)
    requires SendersMatch(w) && L.Claims(w.core) && L.Charges(w.core) && Enabled(w, ClearSender(f))
    ensures SendersMatch(Apply(w, ClearSender(f)))
  {
    var w' := Apply(w, ClearSender(f));
    forall addr, i | Occupies(w', addr, i)
      ensures addr in w'.senders && w'.senders[addr] == i
    {
      assert Occupies(w, addr, i);
      if !(addr in w.core.sh.active && w.core.sh.active[addr] == L.Entry(i, false)) {
        var s :| s in w.core.setups && w.core.setups[s] == L.Setup(addr, L.Building(i));
        L.OpenIsInactive(w.core, s);
      }
    }
  }

  lemma OtherKeeps(w: State, l: Label)
    requires SendersMatch(w) && Enabled(w, l) && (l.TriggerWriting? || l.FailJob?)
    ensures SendersMatch(Apply(w, l))
  {
    forall addr, i | Occupies(Apply(w, l), addr, i)
      ensures Occupies(w, addr, i)
    {
    }
  }

  lemma PublishKeeps(w: State, id: ConnId)
    requires JobsInv(w) && SendersMatch(w) && Enabled(w, Publish(id)) && !Clobbers(w, Publish(id))
    ensures SendersMatch(Apply(w, Publish(id)))
  {
    var w' := Apply(w, Publish(id));
    var at := w.jobs[id].addr;
    forall addr, i | Occupies(w', addr, i)
      ensures addr in w'.senders && w'.senders[addr] == i
    {
      if i == id {
        if addr in w.core.sh.active && w.core.sh.active[addr] == L.Entry(i, false) {
          assert Occupies(w, addr, i);
        }
      } else {
        assert Occupies(w, addr, i);
      }
    }
  }

  lemma PublishBreaks(w: State, l: Label)
    requires Clobbers(w, l)
    ensures !SendersMatch(Apply(w, l))
  {
    var id :| id != l.id && Occupies(w, w.jobs[l.id].addr, id);
    assert Occupies(Apply(w, l), w.jobs[l.id].addr, id);
  }

  /** The exact condition, for every reachable state in which the map is right and every step:
      the map stays right if and only if the step does not publish over another occupant. */
  lemma {:induction false} KeptExactlyUnlessClobbered(cfg: L.Config, ls: seq<Label>, l: Label)
    requires SendersMatch(Exec(Init(cfg), ls))
    ensures var w := Exec(Init(cfg), ls); SendersMatch(Next(w, l)) <==> !Clobbers(w, l)
  {
    RunInv(cfg, ls);
    ExactStep(Exec(Init(cfg), ls), l);
  }

  lemma ExactStep(w: State, l: Label)
    requires Inv(w) && SendersMatch(w)
    ensures SendersMatch(Next(w, l)) <==> !Clobbers(w, l)
  {
    if Clobbers(w, l) {
      PublishBreaks(w, l);
    } else if Enabled(w, l) {
      match l
      case Core(c) => CoreKeeps(w, c);
      case SpawnWriter(id) => StartKeeps(w, id);
      case Publish(id) => PublishKeeps(w, id);
      case EndWriter(id) => EndKeeps(w, id);
      case ClearSender(f) => ClearKeeps(w, f);
      case _ => OtherKeeps(w, l);
    }
  }

  // ---- when no step can break it ---------------------------------------------------------

  /** While no setup was abandoned, a job's own setup still guards the address. */
  lemma AwaitedCannotClobber(w: State, l: Label)
    requires AwaitedInv(w) && L.Guards(w.core) && L.Charges(w.core) && !w.abandoned
    ensures !Clobbers(w, l)
  {
    if l.Publish? && Enabled(w, l) {
      var at := w.jobs[l.id].addr;
      var s :| s in w.core.setups && w.core.setups[s] == L.Setup(at, L.Building(l.id));
      L.OpenIsInactive(w.core, s);
      forall id | Occupies(w, at, id)
        ensures id == l.id
      {
        var t :| t in w.core.setups && w.core.setups[t] == L.Setup(at, L.Building(id));
        assert s == t;
      }
    }
  }

  lemma AbandonedForGood(w: State, l: Label)
    ensures w.abandoned ==> Next(w, l).abandoned
  {
  }

  /** In every run in which no setup was abandoned while the Writing handler had its connection,
      every active connection that nobody is tearing down and whose writer runs finds its own
      sender under its address, however late the cleanups of earlier connections run. */
  lemma {:induction false} SendersStayTheirOwn(cfg: L.Config, ls: seq<Label>)
    requires !Exec(Init(cfg), ls).abandoned
    ensures SendersMatch(Exec(Init(cfg), ls))
    decreases |ls|
  {
    if ls != [] {
      var w := Exec(Init(cfg), ls[..|ls| - 1]);
      var l := ls[|ls| - 1];
      AbandonedForGood(w, l);
      SendersStayTheirOwn(cfg, ls[..|ls| - 1]);
      RunInv(cfg, ls[..|ls| - 1]);
      AwaitedCannotClobber(w, l);
      ExactStep(w, l);
    }
  }

  /** The map is right after every prefix of the run. */
  ghost predicate RightThroughout(cfg: L.Config, ls: seq<Label>)
    decreases |ls|
  {
    SendersMatch(Exec(Init(cfg), ls)) && (ls != [] ==> RightThroughout(cfg, ls[..|ls| - 1]))
  }

  /** No step of the run publishes over another occupant. */
  ghost predicate NeverClobbers(cfg: L.Config, ls: seq<Label>)
    decreases |ls|
  {
    ls != [] ==> NeverClobbers(cfg, ls[..|ls| - 1]) && !Clobbers(Exec(Init(cfg), ls[..|ls| - 1]), ls[|ls| - 1])
  }

  /** Over whole runs: the map is right throughout exactly when no step clobbers an occupant. */
  lemma {:induction false} RightThroughoutExactly(cfg: L.Config, ls: seq<Label>)
    ensures RightThroughout(cfg, ls) <==> NeverClobbers(cfg, ls)
    decreases |ls|
  {
    if ls != [] {
      var init := ls[..|ls| - 1];
      RightThroughoutExactly(cfg, init);
      if SendersMatch(Exec(Init(cfg), init)) {
        KeptExactlyUnlessClobbered(cfg, init, ls[|ls| - 1]);
      }
    }
  }

  // ---- a run that breaks it --------------------------------------------------------------

  lemma {:induction false} ExecAppend(w: State, a: seq<Label>, b: seq<Label>)
    ensures Exec(w, a + b) == Exec(Exec(w, a), b)
    decreases |b|
  {
    if b == [] {
      assert a + b == a;
    } else {
      assert (a + b)[..|a + b| - 1] == a + b[..|b| - 1];
      ExecAppend(w, a, b[..|b| - 1]);
    }
  }

  lemma ExecPair(w: State, l: Label, m: Label)
    ensures Exec(w, [l, m]) == Next(Next(w, l), m)
  {
    assert [l][..0] == [];
    assert Exec(w, [l]) == Next(w, l);
    assert [l, m][..1] == [l];
  }

  const PEER: SocketAddr := SocketAddr(V4(0x7f00_0001), 9000)

  /** A dial to `PEER` by setup `s`, up to the hand-over of connection `id` to the handler. */
  function Dial(s: SetupId, id: ConnId): seq<Label> {
    [Core(L.AcquirePermit(s, PEER)), Core(L.Reserve(s))] + [Core(L.NewConnection(s, id)), TriggerWriting(s)]
  }

  function Dialled(w: State, s: SetupId, id: ConnId): State {
    w.(core := w.core.(sh := w.core.sh.(limits := Reserved(w.core.sh.limits, PEER)),
                       setups := w.core.setups[s := L.Setup(PEER, L.Building(id))],
                       nextId := id + 1),
       jobs := w.jobs[id := Job(PEER, false)])
  }

  lemma DialReserves(w: State, s: SetupId)
    requires s !in w.core.setups && |w.core.setups| < w.core.cfg.maxConnecting
    requires L.Admit(w.core.cfg, w.core.sh, PEER).Admitted?
    ensures Exec(w, [Core(L.AcquirePermit(s, PEER)), Core(L.Reserve(s))])
         == w.(core := w.core.(sh := w.core.sh.(limits := Reserved(w.core.sh.limits, PEER)),
                               setups := w.core.setups[s := L.Setup(PEER, L.Reserved)]))
  {
    ExecPair(w, Core(L.AcquirePermit(s, PEER)), Core(L.Reserve(s)));
    var permitted := Next(w, Core(L.AcquirePermit(s, PEER)));
    assert permitted == w.(core := w.core.(setups := w.core.setups[s := L.Setup(PEER, L.Permitted)]));
    assert permitted.core.setups[s := L.Setup(PEER, L.Reserved)] == w.core.setups[s := L.Setup(PEER, L.Reserved)];
  }

  lemma DialConnects(w: State, s: SetupId, id: ConnId)
    requires s in w.core.setups && w.core.setups[s] == L.Setup(PEER, L.Reserved) && w.core.nextId <= id
    ensures Next(w, Core(L.NewConnection(s, id)))
         == w.(core := w.core.(setups := w.core.setups[s := L.Setup(PEER, L.Building(id))], nextId := id + 1))
  {
  }

  lemma DialTriggers(w: State, s: SetupId, id: ConnId)
    requires s in w.core.setups && w.core.setups[s] == L.Setup(PEER, L.Building(id))
    requires id !in w.jobs && id !in w.returned
    ensures Next(w, TriggerWriting(s)) == w.(jobs := w.jobs[id := Job(PEER, false)])
  {
  }

  lemma DialHandsOver(w: State, s: SetupId, id: ConnId)
    requires s in w.core.setups && w.core.setups[s] == L.Setup(PEER, L.Reserved) && w.core.nextId <= id
    requires id !in w.jobs && id !in w.returned
    ensures Exec(w, [Core(L.NewConnection(s, id)), TriggerWriting(s)])
         == w.(core := w.core.(setups := w.core.setups[s := L.Setup(PEER, L.Building(id))], nextId := id + 1),
               jobs := w.jobs[id := Job(PEER, false)])
  {
    ExecPair(w, Core(L.NewConnection(s, id)), TriggerWriting(s));
    DialConnects(w, s, id);
    DialTriggers(Next(w, Core(L.NewConnection(s, id))), s, id);
  }

  lemma DialRuns(w: State, s: SetupId, id: ConnId)
    requires s !in w.core.setups && |w.core.setups| < w.core.cfg.maxConnecting && w.core.nextId <= id
    requires L.Admit(w.core.cfg, w.core.sh, PEER).Admitted? && id !in w.jobs && id !in w.returned
    ensures Exec(w, Dial(s, id)) == Dialled(w, s, id)
  {
    ExecAppend(w, [Core(L.AcquirePermit(s, PEER)), Core(L.Reserve(s))],
        [Core(L.NewConnection(s, id)), TriggerWriting(s)]);
    DialReserves(w, s);
    var reserved := Exec(w, [Core(L.AcquirePermit(s, PEER)), Core(L.Reserve(s))]);
    DialHandsOver(reserved, s, id);
    assert reserved.core.setups[s := L.Setup(PEER, L.Building(id))]
        == w.core.setups[s := L.Setup(PEER, L.Building(id))];
  }

  /** The first dial is dropped while the handler has its connection; a second dial to the same
      address succeeds; then the first dial's job starts its writer and publishes. */
  function AbandonedDial(): seq<Label> {
    FirstDial() + SecondDial() + [SpawnWriter(0), Publish(0)]
  }

  function FirstDial(): seq<Label> {
    Dial(0, 0) + [Core(L.DropGuard(0)), Core(L.ReleasePermit(0))]
  }

  function SecondDial(): seq<Label> {
    Dial(1, 1) + [SpawnWriter(1), Publish(1)] + [Core(L.Add(1)), Core(L.DropGuard(1))]
  }

  const SMALL: L.Config := L.Config(10, 10, 10)

  /** The state once the first dial is gone; only its job is left. */
  const ORPHANED: State := Init(SMALL).(core := L.Init(SMALL).(nextId := 1), jobs := map[0 := Job(PEER, false)],
      abandoned := true)

  lemma DialledIsDropped()
    ensures Exec(Dialled(Init(SMALL), 0, 0), [Core(L.DropGuard(0)), Core(L.ReleasePermit(0))]) == ORPHANED
  {
    var dialled := Dialled(Init(SMALL), 0, 0);
    ExecPair(dialled, Core(L.DropGuard(0)), Core(L.ReleasePermit(0)));
    var dropped := Next(dialled, Core(L.DropGuard(0)));
    assert dropped.core.sh.limits == LimitsView({}, map[]);
    assert dropped.core.setups == map[0 := L.Setup(PEER, L.Done)];
    assert Next(dropped, Core(L.ReleasePermit(0))).core.setups == map[];
  }

  lemma FirstDialDropped()
    ensures Exec(Init(SMALL), FirstDial()) == ORPHANED
  {
    DialRuns(Init(SMALL), 0, 0);
    ExecAppend(Init(SMALL), Dial(0, 0), [Core(L.DropGuard(0)), Core(L.ReleasePermit(0))]);
    DialledIsDropped();
  }

  /** The second dial has its connection back from the handler. */
  const PUBLISHED: State := Dialled(ORPHANED, 1, 1).(
    senders := map[PEER := 1], jobs := map[0 := Job(PEER, false)], returned := {1}, writers := map[1 := PEER])

  lemma SecondDialPublishes()
    ensures Exec(ORPHANED, Dial(1, 1) + [SpawnWriter(1), Publish(1)]) == PUBLISHED
  {
    DialRuns(ORPHANED, 1, 1);
    ExecAppend(ORPHANED, Dial(1, 1), [SpawnWriter(1), Publish(1)]);
    ExecPair(Dialled(ORPHANED, 1, 1), SpawnWriter(1), Publish(1));
    var published := Next(Next(Dialled(ORPHANED, 1, 1), SpawnWriter(1)), Publish(1));
    assert published.jobs == map[0 := Job(PEER, false)];
  }

  /** The second dial has run to completion. */
  const SETTLED: State := PUBLISHED.(
    core := PUBLISHED.core.(
      sh := L.Shared(map[PEER := L.Entry(1, false)], LimitsView({}, map[V4(0x7f00_0001) := 1]), false),
      setups := map[1 := L.Setup(PEER, L.Live(1))], entered := {1}))

  const ENTERED: State := SETTLED.(core := SETTLED.core.(
    sh := SETTLED.core.sh.(limits := LimitsView({PEER}, map[V4(0x7f00_0001) := 1])),
    setups := map[1 := L.Setup(PEER, L.Added(1))]))

  lemma SecondDialEnters()
    ensures Next(PUBLISHED, Core(L.Add(1))) == ENTERED
  {
    assert PUBLISHED.core.setups == map[1 := L.Setup(PEER, L.Building(1))];
    assert PUBLISHED.core.sh.limits == LimitsView({PEER}, map[V4(0x7f00_0001) := 1]);
    assert map[1 := L.Setup(PEER, L.Building(1))][1 := L.Setup(PEER, L.Added(1))]
        == map[1 := L.Setup(PEER, L.Added(1))];
  }

  lemma SecondDialReleases()
    ensures Next(ENTERED, Core(L.DropGuard(1))) == SETTLED
  {
    assert map[1 := L.Setup(PEER, L.Added(1))][1 := L.Setup(PEER, L.Live(1))] == map[1 := L.Setup(PEER, L.Live(1))];
    assert {PEER} - {PEER} == {};
  }

  lemma SecondDialSettles()
    ensures Exec(PUBLISHED, [Core(L.Add(1)), Core(L.DropGuard(1))]) == SETTLED
  {
    ExecPair(PUBLISHED, Core(L.Add(1)), Core(L.DropGuard(1)));
    SecondDialEnters();
    SecondDialReleases();
  }

  lemma SecondDialSucceeds()
    ensures Exec(ORPHANED, SecondDial()) == SETTLED
  {
    SecondDialPublishes();
    SecondDialSettles();
    ExecAppend(ORPHANED, Dial(1, 1) + [SpawnWriter(1), Publish(1)], [Core(L.Add(1)), Core(L.DropGuard(1))]);
  }

  lemma FirstJobPublishes()
    ensures var w := Exec(SETTLED, [SpawnWriter(0), Publish(0)]);
      w.senders == map[PEER := 0] && w.core == SETTLED.core && w.abandoned && w.writers == map[0 := PEER, 1 := PEER]
  {
    ExecPair(SETTLED, SpawnWriter(0), Publish(0));
  }

  lemma AbandonedDialRuns()
    ensures Exec(Init(SMALL), AbandonedDial()) == Exec(SETTLED, [SpawnWriter(0), Publish(0)])
  {
    FirstDialDropped();
    SecondDialSucceeds();
    ExecThree(Init(SMALL), FirstDial(), SecondDial(), [SpawnWriter(0), Publish(0)]);
  }

  lemma ExecThree(w: State, a: seq<Label>, b: seq<Label>, c: seq<Label>)
    ensures Exec(w, a + b + c) == Exec(Exec(Exec(w, a), b), c)
  {
    ExecAppend(w, a, b);
    ExecAppend(w, a + b, c);
  }

  /** Without the hypothesis the property fails: after this run the second connection is active,
      nobody is tearing it down and its writer runs, yet the address leads to the dead first
      connection's sender; and once that one's writer has cleaned up, to none at all. */
  lemma AbandonedSetupClobbers()
    ensures var w := Exec(Init(SMALL), AbandonedDial());
      && w.abandoned
      && PEER in w.core.sh.active && w.core.sh.active[PEER] == L.Entry(1, false) && 1 in w.writers
      && w.senders == map[PEER := 0]
      && !SendersMatch(w)
      && Next(w, EndWriter(0)).senders == map[]
  {
    AbandonedDialRuns();
    FirstJobPublishes();
    Strayed(Exec(SETTLED, [SpawnWriter(0), Publish(0)]));
  }

  lemma Strayed(w: State)
    requires w.senders == map[PEER := 0] && w.core == SETTLED.core && w.writers == map[0 := PEER, 1 := PEER]
    ensures !SendersMatch(w) && Next(w, EndWriter(0)).senders == map[]
  {
    assert Occupies(w, PEER, 1);
  }
}
