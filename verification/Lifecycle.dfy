/**
 The connection lifecycle of a node as a labelled transition system: reservation, setup,
 activation, claim, teardown and shutdown, run by any number of interleaved tasks over the
 shared `active` map and the connection limits.

 One label is one lock region of the source (or one step of a task's private progress), so a
 sequence of labels is an interleaving. A label whose task is not at that point leaves the
 state as it is; every sequence of labels is therefore a run, and every theorem below is about
 all of them. A future dropped at an await shows up as the drop of what it owns: `DropGuard`
 for a setup, `FinalizerDrop` for a disconnect, `DropCaller` for a shutdown.
 */
module Lifecycle {
  import opened Util
  import opened Net
  import opened Limits

  type SetupId = nat
  type ConnId = nat
  type FinalizerId = nat
  type CallerId = nat

  datatype Config = Config(maxConnections: nat, maxPerIp: nat, maxConnecting: nat)

  /** An established connection; `claimed` is its `disconnecting` flag. */
  datatype Entry = Entry(id: ConnId, claimed: bool)

  /** What the node's tasks share. */
  datatype Shared = Shared(active: map<SocketAddr, Entry>, limits: LimitsView, underway: bool)

  /** How far a connection setup has come. `Reserved`, `Building` and `Refused` own a guard that
      is not completed, `Added` owns a completed one, and every phase owns a setup permit. */
  datatype Phase =
    | Permitted
    | Reserved
    | Building(id: ConnId)
    | Refused(id: ConnId)
    | Added(id: ConnId)
    | Live(id: ConnId)
    | Done
  {
    predicate Open() { Reserved? || Building? || Refused? }
    predicate HoldsGuard() { Open() || Added? }
    predicate HasId() { Building? || Refused? || Added? || Live? }
  }

  datatype Setup = Setup(addr: SocketAddr, phase: Phase)

  /** A live finalizer. It knows its address only; `id` is the connection it was armed for. */
  datatype Finalizer = Finalizer(addr: SocketAddr, id: ConnId)

  /** A shutdown after its address snapshot: what it saw, and which claims it has yet to try. */
  datatype Fanout = Fanout(seen: map<SocketAddr, ConnId>, pending: set<SocketAddr>)

  datatype State = State(
    cfg: Config,
    sh: Shared,
    setups: map<SetupId, Setup>,
    finalizers: map<FinalizerId, Finalizer>,
    callers: map<CallerId, Fanout>,
    nextId: ConnId,
    entered: set<ConnId>,
    removed: set<ConnId>
  )

  datatype Label =
    | AcquirePermit(s: SetupId, addr: SocketAddr)
    | Reserve(s: SetupId)
    | NewConnection(s: SetupId, id: ConnId)
    | Add(s: SetupId)
    | DropGuard(s: SetupId)
    | ReleasePermit(s: SetupId)
    | Claim(f: FinalizerId, addr: SocketAddr, want: Option<ConnId>)
    | FinalizerDrop(f: FinalizerId)
    | Begin
    | Snapshot(k: CallerId)
    | Attempt(k: CallerId, addr: SocketAddr, f: FinalizerId)
    | DropCaller(k: CallerId)

  // ---- the lock regions, on the shared state -------------------------------------------

  datatype Admission =
    | Admitted
    | AlreadyConnected
    | PerIpLimit
    | PendingLimit
    | TotalLimit
    | AlreadyConnecting

  /** The decision of `check_and_reserve`, in the order of its checks. */
  function Admit(cfg: Config, sh: Shared, addr: SocketAddr): Admission {
    if addr in sh.active then AlreadyConnected
    else if IpCountOf(sh.limits, addr) >= cfg.maxPerIp then PerIpLimit
    else if |sh.limits.connecting| >= cfg.maxConnecting then PendingLimit
    else if |sh.active| + |sh.limits.connecting| >= cfg.maxConnections then TotalLimit
    else if addr in sh.limits.connecting then AlreadyConnecting
    else Admitted
  }

  function AfterReserve(cfg: Config, sh: Shared, addr: SocketAddr): Shared {
    if Admit(cfg, sh, addr).Admitted? then sh.(limits := Limits.Reserved(sh.limits, addr)) else sh
  }

  function AfterAdd(sh: Shared, addr: SocketAddr, id: ConnId): Shared {
    if sh.underway then sh else sh.(active := sh.active[addr := Entry(id, false)])
  }

  /** Whether `claim_disconnect` takes the claim. */
  predicate Claimable(sh: Shared, addr: SocketAddr, want: Option<ConnId>) {
    && addr in sh.active
    && (want.Some? ==> sh.active[addr].id == want.value)
    && !sh.active[addr].claimed
  }

  function AfterClaim(sh: Shared, addr: SocketAddr, want: Option<ConnId>): Shared {
    if Claimable(sh, addr, want) then sh.(active := sh.active[addr := sh.active[addr].(claimed := true)]) else sh
  }

  /** The locked part of the finalizer's drop; it is keyed by the address alone. */
  function AfterFinalize(sh: Shared, addr: SocketAddr): Shared {
    sh.(active := sh.active - {addr}, limits := ReleasedIp(sh.limits, addr))
  }

  // ---- the steps -------------------------------------------------------------------------

  function Init(cfg: Config): State {
    State(cfg, Shared(map[], LimitsView({}, map[]), false), map[], map[], map[], 0, {}, {})
  }

  function ReserveStep(st: State, s: SetupId): State
    requires s in st.setups && st.setups[s].phase.Permitted?
  {
    var addr := st.setups[s].addr;
    var admitted := Admit(st.cfg, st.sh, addr).Admitted?;
    st.(sh := AfterReserve(st.cfg, st.sh, addr),
        setups := st.setups[s := Setup(addr, if admitted then Reserved else Done)])
  }

  function AddStep(st: State, s: SetupId): State
    requires s in st.setups && st.setups[s].phase.Building?
  {
    var Setup(addr, phase) := st.setups[s];
    if st.sh.underway then st.(setups := st.setups[s := Setup(addr, Refused(phase.id))])
    else st.(sh := AfterAdd(st.sh, addr, phase.id),
             setups := st.setups[s := Setup(addr, Added(phase.id))],
             entered := st.entered + {phase.id})
  }

  function DropGuardStep(st: State, s: SetupId): State
    requires s in st.setups && st.setups[s].phase.HoldsGuard()
  {
    var Setup(addr, phase) := st.setups[s];
    st.(sh := st.sh.(limits := GuardDropped(st.sh.limits, addr, phase.Added?)),
        setups := st.setups[s := Setup(addr, if phase.Added? then Live(phase.id) else Done)])
  }

  function ClaimStep(st: State, f: FinalizerId, addr: SocketAddr, want: Option<ConnId>): State
    requires f !in st.finalizers
  {
    if Claimable(st.sh, addr, want)
    then st.(sh := AfterClaim(st.sh, addr, want),
             finalizers := st.finalizers[f := Finalizer(addr, st.sh.active[addr].id)])
    else st
  }

  function FinalizeStep(st: State, f: FinalizerId): State
    requires f in st.finalizers
  {
    var addr := st.finalizers[f].addr;
    st.(sh := AfterFinalize(st.sh, addr),
        finalizers := st.finalizers - {f},
        removed := st.removed + (if addr in st.sh.active then {st.sh.active[addr].id} else {}))
  }

  function AttemptStep(st: State, k: CallerId, addr: SocketAddr, f: FinalizerId): State
    requires k in st.callers && f !in st.finalizers
  {
    var tried := ClaimStep(st, f, addr, None);
    var c := st.callers[k];
    tried.(callers := st.callers[k := c.(pending := c.pending - {addr})])
  }

  function SnapshotStep(st: State, k: CallerId): State {
    var seen := map a | a in st.sh.active :: st.sh.active[a].id;
    st.(callers := st.callers[k := Fanout(seen, seen.Keys)])
  }

  predicate Enabled(st: State, l: Label) {
    match l
    case AcquirePermit(s, _) => s !in st.setups && |st.setups| < st.cfg.maxConnecting
    case Reserve(s) => s in st.setups && st.setups[s].phase.Permitted?
    case NewConnection(s, id) => s in st.setups && st.setups[s].phase.Reserved? && st.nextId <= id
    case Add(s) => s in st.setups && st.setups[s].phase.Building?
    case DropGuard(s) => s in st.setups && st.setups[s].phase.HoldsGuard()
    case ReleasePermit(s) => s in st.setups && !st.setups[s].phase.HoldsGuard()
    case Claim(f, _, _) => f !in st.finalizers
    case FinalizerDrop(f) => f in st.finalizers
    case Begin => true
    case Snapshot(k) => st.sh.underway && k !in st.callers
    case Attempt(k, addr, f) => k in st.callers && addr in st.callers[k].pending && f !in st.finalizers
    case DropCaller(k) => k in st.callers
  }

  function Apply(st: State, l: Label): State
    requires Enabled(st, l)
  {
    match l
    case AcquirePermit(s, addr) => st.(setups := st.setups[s := Setup(addr, Permitted)])
    case Reserve(s) => ReserveStep(st, s)
    case NewConnection(s, id) =>
      st.(setups := st.setups[s := Setup(st.setups[s].addr, Building(id))], nextId := id + 1)
    case Add(s) => AddStep(st, s)
    case DropGuard(s) => DropGuardStep(st, s)
    case ReleasePermit(s) => st.(setups := st.setups - {s})
    case Claim(f, addr, want) => ClaimStep(st, f, addr, want)
    case FinalizerDrop(f) => FinalizeStep(st, f)
    case Begin => st.(sh := st.sh.(underway := true))
    case Snapshot(k) => SnapshotStep(st, k)
    case Attempt(k, addr, f) => AttemptStep(st, k, addr, f)
    case DropCaller(k) => st.(callers := st.callers - {k})
  }

  function Next(st: State, l: Label): State {
    if Enabled(st, l) then Apply(st, l) else st
  }

  /** The state after running `ls` from `st`. */
  function Exec(st: State, ls: seq<Label>): State
    decreases |ls|
  {
    if ls == [] then st else Next(Exec(st, ls[..|ls| - 1]), ls[|ls| - 1])
  }

  // ---- the invariant ---------------------------------------------------------------------

  /** The addresses of the live guards, and of those among them that are not completed. */
  ghost function GuardAddrs(setups: map<SetupId, Setup>): set<SocketAddr> {
    set s | s in setups && setups[s].phase.HoldsGuard() :: setups[s].addr
  }

  ghost function OpenAddrs(setups: map<SetupId, Setup>): set<SocketAddr> {
    set s | s in setups && setups[s].phase.Open() :: setups[s].addr
  }

  ghost function ActiveIds(active: map<SocketAddr, Entry>): set<ConnId> {
    set a | a in active :: active[a].id
  }

  /** An address has at most one live guard. */
  ghost predicate GuardsApart(setups: map<SetupId, Setup>) {
    forall s, t :: s in setups && t in setups && s != t && setups[s].phase.HoldsGuard() && setups[t].phase.HoldsGuard()
      ==> setups[s].addr != setups[t].addr
  }

  /** `connecting` lists exactly the live guards. */
  ghost predicate GuardsInv(setups: map<SetupId, Setup>, connecting: set<SocketAddr>) {
    GuardsApart(setups) && connecting == GuardAddrs(setups)
  }

  /** Each IP is charged for its active entries and its uncompleted reservations, which never
      share an address. */
  ghost predicate ChargesInv(keys: set<SocketAddr>, open: set<SocketAddr>, limits: LimitsView) {
    keys !! open && ChargesMatch(limits, keys + open)
  }

  /** A connection enters the active set at most once, and leaves it at most once. */
  ghost predicate ActiveIdsInv(active: map<SocketAddr, Entry>, nextId: ConnId, entered: set<ConnId>,
                               removed: set<ConnId>) {
    && entered == removed + ActiveIds(active)
    && removed !! ActiveIds(active)
    && (forall id :: id in entered ==> id < nextId)
    && (forall a, b :: a in active && b in active && a != b ==> active[a].id != active[b].id)
  }

  /** Setups never share an id, and only those past `add` carry one that has entered. */
  ghost predicate SetupIdsInv(setups: map<SetupId, Setup>, nextId: ConnId, entered: set<ConnId>) {
    && (forall s :: s in setups && setups[s].phase.HasId() ==>
          && setups[s].phase.id < nextId
          && (setups[s].phase.id in entered <==> setups[s].phase.Added? || setups[s].phase.Live?))
    && (forall s, t :: s in setups && t in setups && s != t && setups[s].phase.HasId() && setups[t].phase.HasId()
         ==> setups[s].phase.id != setups[t].phase.id)
  }

  /** Claimed entries and live finalizers correspond one to one, id and address alike. */
  ghost predicate ClaimsInv(active: map<SocketAddr, Entry>, finalizers: map<FinalizerId, Finalizer>) {
    && (forall f :: f in finalizers ==>
          finalizers[f].addr in active && active[finalizers[f].addr] == Entry(finalizers[f].id, true))
    && (forall f, g :: f in finalizers && g in finalizers && f != g ==> finalizers[f].addr != finalizers[g].addr)
    && (forall a :: a in active && active[a].claimed ==> exists f :: f in finalizers && finalizers[f].addr == a)
  }

  ghost predicate CapsInv(cfg: Config, keys: set<SocketAddr>, limits: LimitsView) {
    && |keys + limits.connecting| <= cfg.maxConnections
    && (forall ip :: ip in limits.ipCounts ==> limits.ipCounts[ip] <= cfg.maxPerIp)
  }

  /** Once a shutdown has its snapshot, every entry is one it saw, and is claimed or still to
      be tried. */
  ghost predicate ShutdownInv(active: map<SocketAddr, Entry>, callers: map<CallerId, Fanout>, underway: bool) {
    && (forall k :: k in callers ==> underway)
    && (forall k, a :: k in callers && a in active ==>
          && a in callers[k].seen
          && callers[k].seen[a] == active[a].id
          && (active[a].claimed || a in callers[k].pending))
  }

  ghost predicate Guards(st: State) { GuardsInv(st.setups, st.sh.limits.connecting) }
  ghost predicate Charges(st: State) { ChargesInv(st.sh.active.Keys, OpenAddrs(st.setups), st.sh.limits) }
  ghost predicate Ids(st: State) { ActiveIdsInv(st.sh.active, st.nextId, st.entered, st.removed) }
  ghost predicate SetupIds(st: State) { SetupIdsInv(st.setups, st.nextId, st.entered) }
  ghost predicate Claims(st: State) { ClaimsInv(st.sh.active, st.finalizers) }
  ghost predicate Caps(st: State) { CapsInv(st.cfg, st.sh.active.Keys, st.sh.limits) }
  ghost predicate Budget(st: State) { |st.setups| <= st.cfg.maxConnecting }
  ghost predicate Shutdown(st: State) { ShutdownInv(st.sh.active, st.callers, st.sh.underway) }

  ghost predicate Inv(st: State) {
    Guards(st) && Charges(st) && Ids(st) && SetupIds(st) && Claims(st) && Caps(st) && Budget(st) && Shutdown(st)
  }

  // ---- preservation, piece by piece ------------------------------------------------------

  lemma InitInv(cfg: Config)
    ensures Inv(Init(cfg))
  {
    assert ActiveIds(map[]) == {};
    assert GuardAddrs(map[]) == OpenAddrs(map[]) == {};
  }

  /** How the guards change when a setup moves to another phase. */
  lemma PhaseChange(setups: map<SetupId, Setup>, s: SetupId, phase: Phase)
    requires GuardsApart(setups)
    requires s in setups
    requires phase.HoldsGuard() && !setups[s].phase.HoldsGuard() ==> setups[s].addr !in GuardAddrs(setups)
    ensures var addr := setups[s].addr; var setups' := setups[s := Setup(addr, phase)];
      && GuardsApart(setups')
      && GuardAddrs(setups') == (if phase.HoldsGuard() then GuardAddrs(setups) + {addr}
                                 else if setups[s].phase.HoldsGuard() then GuardAddrs(setups) - {addr}
                                 else GuardAddrs(setups))
      && OpenAddrs(setups') == (if phase.Open() then OpenAddrs(setups) + {addr}
                                else if setups[s].phase.Open() then OpenAddrs(setups) - {addr}
                                else OpenAddrs(setups))
  {
    var addr := setups[s].addr;
    var setups' := setups[s := Setup(addr, phase)];
    forall t | t in setups && t != s && setups[t].phase.HoldsGuard()
      ensures setups'[t] == setups[t] && setups[t].addr in GuardAddrs(setups) && setups[t].addr in GuardAddrs(setups')
    {
    }
    assert setups'[s] == Setup(addr, phase);
  }

  lemma Holds(setups: map<SetupId, Setup>, s: SetupId)
    requires s in setups
    ensures setups[s].phase.HoldsGuard() ==> setups[s].addr in GuardAddrs(setups)
    ensures setups[s].phase.Open() ==> setups[s].addr in OpenAddrs(setups)
  {
  }

  lemma OpenIsGuarded(setups: map<SetupId, Setup>)
    ensures OpenAddrs(setups) <= GuardAddrs(setups)
  {
    forall a | a in OpenAddrs(setups)
      ensures a in GuardAddrs(setups)
    {
      var s :| s in setups && setups[s].phase.Open() && setups[s].addr == a;
      assert setups[s].phase.HoldsGuard();
    }
  }

  /** Replacing one setup keeps the number of permits held. */
  lemma SamePermits(setups: map<SetupId, Setup>, s: SetupId, setup: Setup)
    requires s in setups
    ensures |setups[s := setup]| == |setups|
  {
    assert setups[s := setup].Keys == setups.Keys;
  }

  /** A phase change that keeps the setup's id, entering it in the case of `Added`. */
  lemma SameId(setups: map<SetupId, Setup>, nextId: ConnId, entered: set<ConnId>, s: SetupId, phase: Phase,
               entered': set<ConnId>)
    requires SetupIdsInv(setups, nextId, entered) && s in setups
    requires phase.HasId() ==> setups[s].phase.HasId() && phase.id == setups[s].phase.id
    requires phase.Building? || phase.Refused? ==> setups[s].phase.Building?
    requires if phase.Added? then setups[s].phase.Building? && entered' == entered + {phase.id} else entered' == entered
    requires phase.Live? ==> setups[s].phase.Added?
    ensures SetupIdsInv(setups[s := Setup(setups[s].addr, phase)], nextId, entered')
  {
  }

  // AcquirePermit and ReleasePermit

  lemma NewSetupIds(setups: map<SetupId, Setup>, nextId: ConnId, entered: set<ConnId>, s: SetupId, addr: SocketAddr)
    requires SetupIdsInv(setups, nextId, entered) && s !in setups
    ensures SetupIdsInv(setups[s := Setup(addr, Permitted)], nextId, entered)
  {
  }

  lemma NewSetup(setups: map<SetupId, Setup>, nextId: ConnId, entered: set<ConnId>, s: SetupId, addr: SocketAddr)
    requires GuardsApart(setups) && SetupIdsInv(setups, nextId, entered) && s !in setups
    ensures var setups' := setups[s := Setup(addr, Permitted)];
      && GuardsApart(setups') && SetupIdsInv(setups', nextId, entered)
      && GuardAddrs(setups') == GuardAddrs(setups) && OpenAddrs(setups') == OpenAddrs(setups)
      && |setups'| == |setups| + 1
  {
    NewSetupIds(setups, nextId, entered, s, addr);
    NewSetupGuards(setups, s, addr);
  }

  lemma NewSetupGuards(setups: map<SetupId, Setup>, s: SetupId, addr: SocketAddr)
    requires GuardsApart(setups) && s !in setups
    ensures var setups' := setups[s := Setup(addr, Permitted)];
      && GuardsApart(setups')
      && GuardAddrs(setups') == GuardAddrs(setups) && OpenAddrs(setups') == OpenAddrs(setups)
      && |setups'| == |setups| + 1
  {
    var setups' := setups[s := Setup(addr, Permitted)];
    assert forall t :: t in setups ==> setups'[t] == setups[t];
    assert setups'.Keys == setups.Keys + {s};
  }

  lemma AcquirePermitInv(st: State, s: SetupId, addr: SocketAddr)
    requires Inv(st) && s !in st.setups && |st.setups| < st.cfg.maxConnecting
    ensures Inv(st.(setups := st.setups[s := Setup(addr, Permitted)]))
  {
    NewSetup(st.setups, st.nextId, st.entered, s, addr);
  }

  lemma OldSetup(setups: map<SetupId, Setup>, nextId: ConnId, entered: set<ConnId>, s: SetupId)
    requires GuardsApart(setups) && SetupIdsInv(setups, nextId, entered)
    requires s in setups && !setups[s].phase.HoldsGuard()
    ensures var setups' := setups - {s};
      && GuardsApart(setups') && SetupIdsInv(setups', nextId, entered)
      && GuardAddrs(setups') == GuardAddrs(setups) && OpenAddrs(setups') == OpenAddrs(setups)
      && |setups'| == |setups| - 1
  {
    var setups' := setups - {s};
    assert forall t :: t in setups && t != s ==> t in setups' && setups'[t] == setups[t];
    assert setups'.Keys == setups.Keys - {s};
  }

  lemma ReleasePermitInv(st: State, s: SetupId)
    requires Inv(st) && s in st.setups && !st.setups[s].phase.HoldsGuard()
    ensures Inv(st.(setups := st.setups - {s}))
  {
    OldSetup(st.setups, st.nextId, st.entered, s);
  }

  // Reserve

  lemma ReserveGuards(st: State, s: SetupId)
    requires Guards(st) && s in st.setups && st.setups[s].phase.Permitted?
    ensures var st' := ReserveStep(st, s); var addr := st.setups[s].addr;
      && Guards(st')
      && OpenAddrs(st'.setups) == OpenAddrs(st.setups) + (if Admit(st.cfg, st.sh, addr).Admitted? then {addr} else {})
  {
    PhaseChange(st.setups, s, if Admit(st.cfg, st.sh, st.setups[s].addr).Admitted? then Reserved else Done);
  }

  lemma ReserveLimits(st: State, s: SetupId)
    requires Guards(st) && Charges(st) && Caps(st) && s in st.setups && st.setups[s].phase.Permitted?
    ensures Charges(ReserveStep(st, s)) && Caps(ReserveStep(st, s))
  {
    ReserveGuards(st, s);
    var addr := st.setups[s].addr;
    if Admit(st.cfg, st.sh, addr).Admitted? {
      OpenIsGuarded(st.setups);
      ReservedFits(st.cfg, st.sh, OpenAddrs(st.setups), addr);
    } else {
      assert OpenAddrs(ReserveStep(st, s).setups) == OpenAddrs(st.setups);
    }
  }

  /** What an admitted address does to the charges, and to the caps. */
  lemma ReservedFits(cfg: Config, sh: Shared, open: set<SocketAddr>, addr: SocketAddr)
    requires ChargesInv(sh.active.Keys, open, sh.limits) && CapsInv(cfg, sh.active.Keys, sh.limits)
    requires open <= sh.limits.connecting && Admit(cfg, sh, addr).Admitted?
    ensures var limits' := Limits.Reserved(sh.limits, addr);
      ChargesInv(sh.active.Keys, open + {addr}, limits') && CapsInv(cfg, sh.active.Keys, limits')
  {
    AdmittedFacts(cfg, sh, addr);
    ReservedCharges(sh.active.Keys, open, sh.limits, addr);
    ReservedCaps(cfg, sh.active.Keys, sh.limits, addr);
  }

  lemma AdmittedFacts(cfg: Config, sh: Shared, addr: SocketAddr)
    requires Admit(cfg, sh, addr).Admitted?
    ensures addr !in sh.active.Keys && addr !in sh.limits.connecting
    ensures |sh.active.Keys| + |sh.limits.connecting| < cfg.maxConnections && IpCountOf(sh.limits, addr) < cfg.maxPerIp
  {
  }

  lemma ReservedCharges(keys: set<SocketAddr>, open: set<SocketAddr>, limits: LimitsView, addr: SocketAddr)
    requires ChargesInv(keys, open, limits) && addr !in keys && addr !in open
    ensures ChargesInv(keys, open + {addr}, Limits.Reserved(limits, addr))
  {
    ReserveCharges(limits, keys + open, addr);
    assert keys + open + {addr} == keys + (open + {addr});
  }

  lemma ReservedCaps(cfg: Config, keys: set<SocketAddr>, limits: LimitsView, addr: SocketAddr)
    requires CapsInv(cfg, keys, limits)
    requires |keys| + |limits.connecting| < cfg.maxConnections && addr !in limits.connecting
        && IpCountOf(limits, addr) < cfg.maxPerIp
    ensures CapsInv(cfg, keys, Limits.Reserved(limits, addr))
  {
    UnionSize(keys, limits.connecting + {addr});
  }

  lemma ReserveSetups(st: State, s: SetupId)
    requires SetupIds(st) && Budget(st) && s in st.setups && st.setups[s].phase.Permitted?
    ensures SetupIds(ReserveStep(st, s)) && Budget(ReserveStep(st, s))
  {
    var phase := if Admit(st.cfg, st.sh, st.setups[s].addr).Admitted? then Reserved else Done;
    SameId(st.setups, st.nextId, st.entered, s, phase, st.entered);
    SamePermits(st.setups, s, Setup(st.setups[s].addr, phase));
  }

  lemma ReserveInv(st: State, s: SetupId)
    requires Inv(st) && s in st.setups && st.setups[s].phase.Permitted?
    ensures Inv(ReserveStep(st, s))
  {
    ReserveGuards(st, s);
    ReserveLimits(st, s);
    ReserveSetups(st, s);
  }

  // NewConnection

  lemma NewConnectionGuards(setups: map<SetupId, Setup>, s: SetupId, id: ConnId, connecting: set<SocketAddr>)
    requires GuardsInv(setups, connecting) && s in setups && setups[s].phase.Reserved?
    ensures var setups' := setups[s := Setup(setups[s].addr, Building(id))];
      GuardsInv(setups', connecting) && OpenAddrs(setups') == OpenAddrs(setups) && |setups'| == |setups|
  {
    Holds(setups, s);
    PhaseChange(setups, s, Building(id));
    SamePermits(setups, s, Setup(setups[s].addr, Building(id)));
  }

  lemma NewConnectionIds(setups: map<SetupId, Setup>, s: SetupId, id: ConnId, nextId: ConnId, entered: set<ConnId>)
    requires SetupIdsInv(setups, nextId, entered) && s in setups && setups[s].phase.Reserved? && nextId <= id
    requires forall i :: i in entered ==> i < nextId
    ensures SetupIdsInv(setups[s := Setup(setups[s].addr, Building(id))], id + 1, entered)
  {
  }

  lemma NewConnectionInv(st: State, s: SetupId, id: ConnId)
    requires Inv(st) && s in st.setups && st.setups[s].phase.Reserved? && st.nextId <= id
    ensures Inv(st.(setups := st.setups[s := Setup(st.setups[s].addr, Building(id))], nextId := id + 1))
  {
    NewConnectionGuards(st.setups, s, id, st.sh.limits.connecting);
    NewConnectionIds(st.setups, s, id, st.nextId, st.entered);
  }

  // Add

  lemma AddGuards(st: State, s: SetupId)
    requires Guards(st) && s in st.setups && st.setups[s].phase.Building?
    ensures var st' := AddStep(st, s); var addr := st.setups[s].addr;
      && Guards(st')
      && addr in OpenAddrs(st.setups) && addr in st.sh.limits.connecting
      && OpenAddrs(st'.setups) == OpenAddrs(st.setups) - (if st.sh.underway then {} else {addr})
  {
    var Setup(addr, phase) := st.setups[s];
    Holds(st.setups, s);
    PhaseChange(st.setups, s, if st.sh.underway then Refused(phase.id) else Added(phase.id));
  }

  lemma AddedKeys(sh: Shared, addr: SocketAddr, id: ConnId)
    requires !sh.underway
    ensures AfterAdd(sh, addr, id).active.Keys == sh.active.Keys + {addr}
    ensures AfterAdd(sh, addr, id).limits == sh.limits
  {
  }

  lemma AddLimits(st: State, s: SetupId)
    requires Charges(st) && Caps(st) && s in st.setups && st.setups[s].phase.Building?
    requires var addr := st.setups[s].addr;
      && addr in OpenAddrs(st.setups) && addr in st.sh.limits.connecting
      && OpenAddrs(AddStep(st, s).setups) == OpenAddrs(st.setups) - (if st.sh.underway then {} else {addr})
    ensures Charges(AddStep(st, s)) && Caps(AddStep(st, s))
  {
    var addr := st.setups[s].addr;
    if st.sh.underway {
      assert OpenAddrs(st.setups) - {} == OpenAddrs(st.setups);
    } else {
      ChargeMoves(st.cfg, st.sh.active.Keys, OpenAddrs(st.setups), st.sh.limits, addr);
      AddedKeys(st.sh, addr, st.setups[s].phase.id);
    }
  }

  /** Activation moves a charge from the reservation to the entry. */
  lemma ChargeMoves(cfg: Config, keys: set<SocketAddr>, open: set<SocketAddr>, limits: LimitsView, addr: SocketAddr)
    requires ChargesInv(keys, open, limits) && CapsInv(cfg, keys, limits)
    requires addr in open && addr in limits.connecting
    ensures ChargesInv(keys + {addr}, open - {addr}, limits) && CapsInv(cfg, keys + {addr}, limits)
  {
    assert keys + {addr} + (open - {addr}) == keys + open;
    assert keys + {addr} + limits.connecting == keys + limits.connecting;
  }

  lemma AddSetups(st: State, s: SetupId)
    requires SetupIds(st) && Budget(st) && s in st.setups && st.setups[s].phase.Building?
    ensures SetupIds(AddStep(st, s)) && Budget(AddStep(st, s))
  {
    var Setup(addr, phase) := st.setups[s];
    var phase' := if st.sh.underway then Refused(phase.id) else Added(phase.id);
    SameId(st.setups, st.nextId, st.entered, s, phase', AddStep(st, s).entered);
    SamePermits(st.setups, s, Setup(addr, phase'));
  }

  /** A fresh id at a free address. */
  lemma Activated(active: map<SocketAddr, Entry>, nextId: ConnId, entered: set<ConnId>, removed: set<ConnId>,
                  addr: SocketAddr, id: ConnId)
    requires ActiveIdsInv(active, nextId, entered, removed)
    requires addr !in active && id !in entered && id < nextId
    ensures ActiveIdsInv(active[addr := Entry(id, false)], nextId, entered + {id}, removed)
  {
    var active' := active[addr := Entry(id, false)];
    assert forall a :: a in active ==> active'[a] == active[a] && active[a].id in ActiveIds(active);
    assert ActiveIds(active') == ActiveIds(active) + {id} by {
      assert active'[addr].id == id;
    }
  }

  lemma AddActive(st: State, s: SetupId)
    requires Guards(st) && Charges(st) && Ids(st) && SetupIds(st) && Claims(st) && Shutdown(st)
    requires s in st.setups && st.setups[s].phase.Building?
    ensures Ids(AddStep(st, s)) && Claims(AddStep(st, s)) && Shutdown(AddStep(st, s))
  {
    AddGuards(st, s);
    var Setup(addr, phase) := st.setups[s];
    assert addr !in st.sh.active;
    if !st.sh.underway {
      Activated(st.sh.active, st.nextId, st.entered, st.removed, addr, phase.id);
    }
  }

  lemma AddInv(st: State, s: SetupId)
    requires Inv(st) && s in st.setups && st.setups[s].phase.Building?
    ensures Inv(AddStep(st, s))
  {
    AddGuards(st, s);
    AddLimits(st, s);
    AddSetups(st, s);
    AddActive(st, s);
  }

  // DropGuard

  lemma DropGuards(st: State, s: SetupId)
    requires Guards(st) && s in st.setups && st.setups[s].phase.HoldsGuard()
    ensures var st' := DropGuardStep(st, s); var Setup(addr, phase) := st.setups[s];
      && Guards(st')
      && (phase.Added? || addr in OpenAddrs(st.setups))
      && OpenAddrs(st'.setups) == OpenAddrs(st.setups) - (if phase.Added? then {} else {addr})
  {
    var Setup(addr, phase) := st.setups[s];
    Holds(st.setups, s);
    PhaseChange(st.setups, s, if phase.Added? then Live(phase.id) else Done);
  }

  lemma Unguarded(cfg: Config, keys: set<SocketAddr>, open: set<SocketAddr>, limits: LimitsView, addr: SocketAddr,
                  completed: bool)
    requires ChargesInv(keys, open, limits) && CapsInv(cfg, keys, limits)
    requires !completed ==> addr in open
    ensures var limits' := GuardDropped(limits, addr, completed);
      ChargesInv(keys, open - (if completed then {} else {addr}), limits') && CapsInv(cfg, keys, limits')
  {
    var cleared := limits.(connecting := limits.connecting - {addr});
    assert ChargesMatch(cleared, keys + open);
    SubsetSize(keys + cleared.connecting, keys + limits.connecting);
    if completed {
      assert open - {} == open;
    } else {
      ReleaseCharges(cleared, keys + open, addr);
      assert keys + open - {addr} == keys + (open - {addr});
    }
  }

  lemma DropGuardSetups(st: State, s: SetupId)
    requires SetupIds(st) && Budget(st) && s in st.setups && st.setups[s].phase.HoldsGuard()
    ensures SetupIds(DropGuardStep(st, s)) && Budget(DropGuardStep(st, s))
  {
    var Setup(addr, phase) := st.setups[s];
    var phase' := if phase.Added? then Live(phase.id) else Done;
    SameId(st.setups, st.nextId, st.entered, s, phase', st.entered);
    SamePermits(st.setups, s, Setup(addr, phase'));
  }

  lemma DropGuardInv(st: State, s: SetupId)
    requires Inv(st) && s in st.setups && st.setups[s].phase.HoldsGuard()
    ensures Inv(DropGuardStep(st, s))
  {
    var Setup(addr, phase) := st.setups[s];
    DropGuards(st, s);
    Unguarded(st.cfg, st.sh.active.Keys, OpenAddrs(st.setups), st.sh.limits, addr, phase.Added?);
    DropGuardSetups(st, s);
  }

  // Claim and Attempt

  lemma Claimed(active: map<SocketAddr, Entry>, finalizers: map<FinalizerId, Finalizer>, addr: SocketAddr,
                f: FinalizerId)
    requires ClaimsInv(active, finalizers) && addr in active && !active[addr].claimed && f !in finalizers
    ensures ClaimsInv(active[addr := active[addr].(claimed := true)], finalizers[f := Finalizer(addr, active[addr].id)])
  {
    var active' := active[addr := active[addr].(claimed := true)];
    var finalizers' := finalizers[f := Finalizer(addr, active[addr].id)];
    assert finalizers'[f].addr == addr;
    forall a | a in active' && active'[a].claimed
      ensures exists g :: g in finalizers' && finalizers'[g].addr == a
    {
      if a != addr {
        var g :| g in finalizers && finalizers[g].addr == a;
        assert finalizers'[g].addr == a;
      }
    }
  }

  lemma ClaimedIds(active: map<SocketAddr, Entry>, nextId: ConnId, entered: set<ConnId>, removed: set<ConnId>,
                   addr: SocketAddr)
    requires ActiveIdsInv(active, nextId, entered, removed) && addr in active
    ensures var active' := active[addr := active[addr].(claimed := true)];
      active'.Keys == active.Keys && ActiveIdsInv(active', nextId, entered, removed)
  {
    var active' := active[addr := active[addr].(claimed := true)];
    assert forall a :: a in active' ==> active'[a].id == active[a].id;
    assert ActiveIds(active') == ActiveIds(active);
  }

  lemma ClaimedShutdown(active: map<SocketAddr, Entry>, callers: map<CallerId, Fanout>, underway: bool,
                        addr: SocketAddr)
    requires ShutdownInv(active, callers, underway) && addr in active
    ensures ShutdownInv(active[addr := active[addr].(claimed := true)], callers, underway)
  {
  }

  lemma ClaimInv(st: State, f: FinalizerId, addr: SocketAddr, want: Option<ConnId>)
    requires Inv(st) && f !in st.finalizers
    ensures Inv(ClaimStep(st, f, addr, want))
  {
    if Claimable(st.sh, addr, want) {
      Claimed(st.sh.active, st.finalizers, addr, f);
      ClaimedIds(st.sh.active, st.nextId, st.entered, st.removed, addr);
      ClaimedShutdown(st.sh.active, st.callers, st.sh.underway, addr);
    }
  }

  lemma Tried(active: map<SocketAddr, Entry>, callers: map<CallerId, Fanout>, underway: bool, k: CallerId,
              addr: SocketAddr)
    requires ShutdownInv(active, callers, underway) && k in callers
    requires addr in active ==> active[addr].claimed
    ensures ShutdownInv(active, callers[k := callers[k].(pending := callers[k].pending - {addr})], underway)
  {
  }

  lemma AttemptInv(st: State, k: CallerId, addr: SocketAddr, f: FinalizerId)
    requires Inv(st) && k in st.callers && f !in st.finalizers
    ensures Inv(AttemptStep(st, k, addr, f))
  {
    ClaimInv(st, f, addr, None);
    var tried := ClaimStep(st, f, addr, None);
    Tried(tried.sh.active, st.callers, st.sh.underway, k, addr);
  }

  // FinalizerDrop

  lemma Finalized(active: map<SocketAddr, Entry>, finalizers: map<FinalizerId, Finalizer>, f: FinalizerId)
    requires ClaimsInv(active, finalizers) && f in finalizers
    ensures ClaimsInv(active - {finalizers[f].addr}, finalizers - {f})
  {
    var active' := active - {finalizers[f].addr};
    forall a | a in active' && active'[a].claimed
      ensures exists g :: g in finalizers - {f} && (finalizers - {f})[g].addr == a
    {
      var g :| g in finalizers && finalizers[g].addr == a;
      assert g in finalizers - {f};
    }
  }

  lemma FinalizedIds(active: map<SocketAddr, Entry>, nextId: ConnId, entered: set<ConnId>, removed: set<ConnId>,
                     addr: SocketAddr)
    requires ActiveIdsInv(active, nextId, entered, removed) && addr in active
    ensures ActiveIdsInv(active - {addr}, nextId, entered, removed + {active[addr].id})
  {
    var active' := active - {addr};
    assert forall a :: a in active && a != addr ==>
        a in active' && active'[a] == active[a] && active[a].id in ActiveIds(active);
    assert active[addr].id in ActiveIds(active);
    assert ActiveIds(active') == ActiveIds(active) - {active[addr].id};
  }

  lemma FinalizedLimits(cfg: Config, keys: set<SocketAddr>, open: set<SocketAddr>, limits: LimitsView, addr: SocketAddr)
    requires ChargesInv(keys, open, limits) && CapsInv(cfg, keys, limits) && addr in keys
    ensures ChargesInv(keys - {addr}, open, ReleasedIp(limits, addr))
        && CapsInv(cfg, keys - {addr}, ReleasedIp(limits, addr))
  {
    ReleaseCharges(limits, keys + open, addr);
    assert keys - {addr} + open == keys + open - {addr};
    SubsetSize(keys - {addr} + limits.connecting, keys + limits.connecting);
  }

  lemma FinalizeLimits(st: State, f: FinalizerId)
    requires Charges(st) && Caps(st) && f in st.finalizers && st.finalizers[f].addr in st.sh.active
    ensures Charges(FinalizeStep(st, f)) && Caps(FinalizeStep(st, f))
  {
    var addr := st.finalizers[f].addr;
    FinalizedLimits(st.cfg, st.sh.active.Keys, OpenAddrs(st.setups), st.sh.limits, addr);
    assert (st.sh.active - {addr}).Keys == st.sh.active.Keys - {addr};
  }

  lemma FinalizeActive(st: State, f: FinalizerId)
    requires Ids(st) && Claims(st) && Shutdown(st) && f in st.finalizers
    ensures Ids(FinalizeStep(st, f)) && Claims(FinalizeStep(st, f)) && Shutdown(FinalizeStep(st, f))
    ensures st.finalizers[f].addr in st.sh.active
  {
    Finalized(st.sh.active, st.finalizers, f);
    FinalizedIds(st.sh.active, st.nextId, st.entered, st.removed, st.finalizers[f].addr);
  }

  lemma FinalizeGuards(st: State, f: FinalizerId)
    requires Guards(st) && f in st.finalizers
    ensures Guards(FinalizeStep(st, f))
  {
  }

  lemma FinalizeSetups(st: State, f: FinalizerId)
    requires SetupIds(st) && Budget(st) && f in st.finalizers
    ensures SetupIds(FinalizeStep(st, f)) && Budget(FinalizeStep(st, f))
  {
  }

  lemma FinalizeInv(st: State, f: FinalizerId)
    requires Inv(st) && f in st.finalizers
    ensures Inv(FinalizeStep(st, f))
  {
    FinalizeGuards(st, f);
    FinalizeSetups(st, f);
    FinalizeActive(st, f);
    FinalizeLimits(st, f);
  }

  // Begin, Snapshot and DropCaller

  lemma SnapshotShutdown(st: State, k: CallerId)
    requires Shutdown(st) && st.sh.underway
    ensures Shutdown(SnapshotStep(st, k))
  {
  }

  lemma SnapshotInv(st: State, k: CallerId)
    requires Inv(st) && st.sh.underway
    ensures Inv(SnapshotStep(st, k))
  {
    SnapshotShutdown(st, k);
  }

  lemma BegunShutdown(active: map<SocketAddr, Entry>, callers: map<CallerId, Fanout>, underway: bool,
                      gone: set<CallerId>)
    requires ShutdownInv(active, callers, underway)
    ensures ShutdownInv(active, callers, true)
    ensures ShutdownInv(active, callers - gone, underway)
  {
  }

  lemma BeginInv(st: State)
    requires Inv(st)
    ensures Inv(st.(sh := st.sh.(underway := true)))
  {
    BegunShutdown(st.sh.active, st.callers, st.sh.underway, {});
  }

  lemma DropCallerInv(st: State, k: CallerId)
    requires Inv(st)
    ensures Inv(st.(callers := st.callers - {k}))
  {
    BegunShutdown(st.sh.active, st.callers, st.sh.underway, {k});
  }

  // ---- the invariant over whole runs -----------------------------------------------------

  lemma SetupStepInv(st: State, l: Label)
    requires Inv(st) && Enabled(st, l)
    requires l.AcquirePermit? || l.Reserve? || l.NewConnection? || l.Add? || l.DropGuard? || l.ReleasePermit?
    ensures Inv(Apply(st, l))
  {
    match l
    case AcquirePermit(s, addr) => AcquirePermitInv(st, s, addr);
    case Reserve(s) => ReserveInv(st, s);
    case NewConnection(s, id) => NewConnectionInv(st, s, id);
    case Add(s) => AddInv(st, s);
    case DropGuard(s) => DropGuardInv(st, s);
    case ReleasePermit(s) => ReleasePermitInv(st, s);
  }

  lemma TeardownStepInv(st: State, l: Label)
    requires Inv(st) && Enabled(st, l)
    requires l.Claim? || l.FinalizerDrop? || l.Begin? || l.Snapshot? || l.Attempt? || l.DropCaller?
    ensures Inv(Apply(st, l))
  {
    match l
    case Claim(f, addr, want) => ClaimInv(st, f, addr, want);
    case FinalizerDrop(f) => FinalizeInv(st, f);
    case Begin => BeginInv(st);
    case Snapshot(k) => SnapshotInv(st, k);
    case Attempt(k, addr, f) => AttemptInv(st, k, addr, f);
    case DropCaller(k) => DropCallerInv(st, k);
  }

  /** Every step of every task keeps the invariant. */
  lemma StepInv(st: State, l: Label)
    requires Inv(st)
    ensures Inv(Next(st, l))
  {
    if Enabled(st, l) {
      if l.Claim? || l.FinalizerDrop? || l.Begin? || l.Snapshot? || l.Attempt? || l.DropCaller? {
        TeardownStepInv(st, l);
      } else {
        SetupStepInv(st, l);
      }
    }
  }

  lemma {:induction false} ExecInv(st: State, ls: seq<Label>)
    requires Inv(st)
    ensures Inv(Exec(st, ls))
    decreases |ls|
  {
    if ls != [] {
      ExecInv(st, ls[..|ls| - 1]);
      StepInv(Exec(st, ls[..|ls| - 1]), ls[|ls| - 1]);
    }
  }

  /** The invariant holds after every interleaving. */
  lemma {:induction false} RunInv(cfg: Config, ls: seq<Label>)
    ensures Inv(Exec(Init(cfg), ls))
  {
    InitInv(cfg);
    ExecInv(Init(cfg), ls);
  }

  // ---- address identity ------------------------------------------------------------------

  lemma OpenIsInactive(st: State, s: SetupId)
    requires Charges(st) && s in st.setups && st.setups[s].phase.Open()
    ensures st.setups[s].addr !in st.sh.active
  {
    Holds(st.setups, s);
  }

  lemma AddGrows(st: State, s: SetupId)
    requires s in st.setups && st.setups[s].phase.Building? && !st.sh.underway && st.setups[s].addr !in st.sh.active
    ensures var active' := AddStep(st, s).sh.active;
      && active' == st.sh.active[st.setups[s].addr := Entry(st.setups[s].phase.id, false)]
      && |active'| == |st.sh.active| + 1
  {
    assert AddStep(st, s).sh.active.Keys == st.sh.active.Keys + {st.setups[s].addr};
  }

  /** A reservation that is not completed never shares its address with an active entry, so
      `add` finds the address free: it either refuses or makes the active set grow by one. */
  lemma {:induction false} AddNeverOverwrites(cfg: Config, ls: seq<Label>, s: SetupId)
    requires var st := Exec(Init(cfg), ls); s in st.setups && st.setups[s].phase.Open()
    ensures var st := Exec(Init(cfg), ls); var st' := Next(st, Add(s)); var addr := st.setups[s].addr;
      && addr !in st.sh.active
      && (st.setups[s].phase.Building? && !st.sh.underway ==>
            && st'.sh.active == st.sh.active[addr := Entry(st.setups[s].phase.id, false)]
            && |st'.sh.active| == |st.sh.active| + 1)
      && (st.sh.underway ==> st'.sh == st.sh)
  {
    var st := Exec(Init(cfg), ls);
    assert st.setups[s].addr !in st.sh.active by {
      RunInv(cfg, ls);
      OpenIsInactive(st, s);
    }
    if st.setups[s].phase.Building? && !st.sh.underway {
      AddGrows(st, s);
    }
  }

  /** The finalizer is keyed by an address, yet it removes exactly the connection it claimed,
      and no connection is torn down twice. */
  lemma {:induction false} FinalizerRemovesItsOwn(cfg: Config, ls: seq<Label>, f: FinalizerId)
    requires f in Exec(Init(cfg), ls).finalizers
    ensures var st := Exec(Init(cfg), ls);
      var st', addr, id := Next(st, FinalizerDrop(f)), st.finalizers[f].addr, st.finalizers[f].id;
      && addr in st.sh.active && st.sh.active[addr].id == id
      && st'.sh.active == st.sh.active - {addr}
      && id !in st.removed && st'.removed == st.removed + {id}
      && |st'.sh.active| == |st.sh.active| - 1
  {
    RunInv(cfg, ls);
    FinalizeExactly(Exec(Init(cfg), ls), f);
  }

  lemma FinalizeExactly(st: State, f: FinalizerId)
    requires Claims(st) && Ids(st) && f in st.finalizers
    ensures var st' := Next(st, FinalizerDrop(f)); var Finalizer(addr, id) := st.finalizers[f];
      && addr in st.sh.active && st.sh.active[addr].id == id
      && st'.sh.active == st.sh.active - {addr}
      && id !in st.removed && st'.removed == st.removed + {id}
      && |st'.sh.active| == |st.sh.active| - 1
  {
    FinalizerMatch(st, f);
    FinalizeShrinks(st, f);
  }

  lemma FinalizerMatch(st: State, f: FinalizerId)
    requires Claims(st) && Ids(st) && f in st.finalizers
    ensures var Finalizer(addr, id) := st.finalizers[f];
      addr in st.sh.active && st.sh.active[addr].id == id && id !in st.removed
  {
    assert st.sh.active[st.finalizers[f].addr].id in ActiveIds(st.sh.active);
  }

  lemma FinalizeShrinks(st: State, f: FinalizerId)
    requires f in st.finalizers && st.finalizers[f].addr in st.sh.active
    ensures |FinalizeStep(st, f).sh.active| == |st.sh.active| - 1
  {
    var addr := st.finalizers[f].addr;
    assert FinalizeStep(st, f).sh.active.Keys == st.sh.active.Keys - {addr};
  }

  /** `f` is the live finalizer of the claimed connection `id` at `addr`. */
  ghost predicate Owns(st: State, f: FinalizerId, addr: SocketAddr, id: ConnId) {
    && f in st.finalizers && st.finalizers[f] == Finalizer(addr, id)
    && addr in st.sh.active && st.sh.active[addr] == Entry(id, true)
  }

  lemma OwnershipStep(st: State, l: Label, f: FinalizerId, addr: SocketAddr, id: ConnId)
    requires Charges(st) && Owns(st, f, addr, id) && l != FinalizerDrop(f)
    requires l.FinalizerDrop? && l.f in st.finalizers ==> st.finalizers[l.f].addr != addr
    ensures Owns(Next(st, l), f, addr, id)
  {
    if l.Add? && Enabled(st, l) {
      OpenIsInactive(st, l.s);
    }
  }

  /** A claimed entry keeps its id, and its claim its one owner, until that owner drops. */
  lemma {:induction false} ClaimHolds(cfg: Config, ls: seq<Label>, more: seq<Label>, f: FinalizerId)
    requires f in Exec(Init(cfg), ls).finalizers
    requires FinalizerDrop(f) !in more
    ensures var Finalizer(addr, id) := Exec(Init(cfg), ls).finalizers[f];
      Owns(Exec(Exec(Init(cfg), ls), more), f, addr, id)
    decreases |more|
  {
    var st := Exec(Init(cfg), ls);
    RunInv(cfg, ls);
    if more != [] {
      ClaimHolds(cfg, ls, more[..|more| - 1], f);
      var mid := Exec(st, more[..|more| - 1]);
      ExecInv(st, more[..|more| - 1]);
      OwnershipStep(mid, more[|more| - 1], f, st.finalizers[f].addr, st.finalizers[f].id);
    }
  }

  /** The cleanup guard of a connection that is gone changes nothing, however late it fires and
      whoever holds the address by then. */
  lemma {:induction false} StaleGuardIsHarmless(cfg: Config, ls: seq<Label>, more: seq<Label>, f: FinalizerId,
                                                addr: SocketAddr, id: ConnId)
    requires id in Exec(Init(cfg), ls).removed
    ensures var st := Exec(Exec(Init(cfg), ls), more); Next(st, Claim(f, addr, Some(id))) == st
  {
    var st := Exec(Exec(Init(cfg), ls), more);
    RemovedForGood(Exec(Init(cfg), ls), more, id);
    assert !Claimable(st.sh, addr, Some(id)) by {
      RunInv(cfg, ls);
      ExecInv(Exec(Init(cfg), ls), more);
      RemovedIsUnclaimable(st, addr, id);
    }
  }

  lemma RemovedIsUnclaimable(st: State, addr: SocketAddr, id: ConnId)
    requires Ids(st) && id in st.removed
    ensures !Claimable(st.sh, addr, Some(id))
  {
    if addr in st.sh.active {
      assert st.sh.active[addr].id in ActiveIds(st.sh.active);
    }
  }

  lemma RemovedStep(st: State, l: Label)
    ensures st.removed <= Next(st, l).removed
  {
  }

  lemma {:induction false} RemovedForGood(st: State, more: seq<Label>, id: ConnId)
    requires id in st.removed
    ensures id in Exec(st, more).removed
    decreases |more|
  {
    if more != [] {
      RemovedForGood(st, more[..|more| - 1], id);
      RemovedStep(Exec(st, more[..|more| - 1]), more[|more| - 1]);
    }
  }

  lemma EnteredByAdd(st: State, s: SetupId)
    requires s in st.setups && st.setups[s].phase.Building?
    ensures AddStep(st, s).entered
         == if st.sh.underway then st.entered else st.entered + {st.setups[s].phase.id}
  {
  }

  predicate Tears(l: Label) {
    l.Claim? || l.Attempt? || l.FinalizerDrop? || l.Snapshot?
  }

  lemma TeardownEntersNothing(st: State, l: Label)
    requires Enabled(st, l) && Tears(l)
    ensures Apply(st, l).entered == st.entered
  {
  }

  lemma SetupEntersNothing(st: State, l: Label)
    requires Enabled(st, l) && !Tears(l) && !l.Add?
    ensures Apply(st, l).entered == st.entered
  {
  }

  /** What each step adds to the connections that ever entered. */
  lemma EnteredFrame(st: State, l: Label)
    requires Enabled(st, l)
    ensures Apply(st, l).entered
         == if l.Add? && !st.sh.underway then st.entered + {st.setups[l.s].phase.id} else st.entered
  {
    if l.Add? {
      EnteredByAdd(st, l.s);
    } else if Tears(l) {
      TeardownEntersNothing(st, l);
    } else {
      SetupEntersNothing(st, l);
    }
  }

  lemma TeardownRemoves(st: State, l: Label)
    requires Enabled(st, l) && Tears(l) && !l.FinalizerDrop?
    ensures Apply(st, l).removed == st.removed
  {
  }

  lemma SetupRemovesNothing(st: State, l: Label)
    requires Enabled(st, l) && !Tears(l)
    ensures Apply(st, l).removed == st.removed
  {
  }

  /** Only finalizers remove. */
  lemma RemovedFrame(st: State, l: Label)
    requires Enabled(st, l) && !l.FinalizerDrop?
    ensures Apply(st, l).removed == st.removed
  {
    if Tears(l) {
      TeardownRemoves(st, l);
    } else {
      SetupRemovesNothing(st, l);
    }
  }

  lemma ClaimCallers(st: State, f: FinalizerId, addr: SocketAddr, want: Option<ConnId>)
    requires f !in st.finalizers
    ensures ClaimStep(st, f, addr, want).callers == st.callers
  {
  }

  lemma FinalizeCallers(st: State, f: FinalizerId)
    requires f in st.finalizers
    ensures FinalizeStep(st, f).callers == st.callers
  {
  }

  lemma SetupCallers(st: State, l: Label)
    requires Enabled(st, l) && !Tears(l) && !l.DropCaller?
    ensures Apply(st, l).callers == st.callers
  {
  }

  /** Shutdowns are added by their snapshot alone. */
  lemma CallersFrame(st: State, l: Label)
    requires Enabled(st, l) && !l.Snapshot? && !l.Attempt?
    ensures Apply(st, l).callers == if l.DropCaller? then st.callers - {l.k} else st.callers
  {
    if l.Claim? {
      ClaimCallers(st, l.f, l.addr, l.want);
    } else if l.FinalizerDrop? {
      FinalizeCallers(st, l.f);
    } else if !l.DropCaller? {
      SetupCallers(st, l);
    }
  }

  // ---- accounting ------------------------------------------------------------------------

  /** The setups that own an uncompleted guard charged to `ip`. */
  ghost function OpenGuardsOn(st: State, ip: Ip): set<SetupId> {
    set s | s in st.setups && st.setups[s].phase.Open() && CanonicalIp(st.setups[s].addr) == ip
  }

  ghost function AddrsOf(setups: map<SetupId, Setup>, who: set<SetupId>): set<SocketAddr>
    requires who <= setups.Keys
  {
    set s | s in who :: setups[s].addr
  }

  /** Guards that are apart are as many as their addresses. */
  lemma {:induction false} GuardCount(setups: map<SetupId, Setup>, who: set<SetupId>)
    requires GuardsApart(setups) && who <= setups.Keys
    requires forall s :: s in who ==> setups[s].phase.HoldsGuard()
    ensures |AddrsOf(setups, who)| == |who|
  {
    if who != {} {
      var s :| s in who;
      GuardCount(setups, who - {s});
      assert AddrsOf(setups, who) == AddrsOf(setups, who - {s}) + {setups[s].addr};
    }
  }

  lemma OpenGuardsSize(st: State, ip: Ip)
    requires Guards(st)
    ensures |OpenGuardsOn(st, ip)| == |OnIp(OpenAddrs(st.setups), ip)|
  {
    var who := OpenGuardsOn(st, ip);
    GuardCount(st.setups, who);
    assert AddrsOf(st.setups, who) == OnIp(OpenAddrs(st.setups), ip);
  }

  lemma OnIpSplit(a: set<SocketAddr>, b: set<SocketAddr>, ip: Ip)
    requires a !! b
    ensures |OnIp(a + b, ip)| == |OnIp(a, ip)| + |OnIp(b, ip)|
  {
    assert OnIp(a + b, ip) == OnIp(a, ip) + OnIp(b, ip);
    UnionSize(OnIp(a, ip), OnIp(b, ip));
    assert OnIp(b, ip) - OnIp(a, ip) == OnIp(b, ip);
  }

  /** After every interleaving, the charge of an IP is the number of its uncompleted guards plus
      the number of its active entries, and a bucket that would hold zero does not exist. */
  lemma {:induction false} ChargeConservation(cfg: Config, ls: seq<Label>, ip: Ip)
    ensures var st := Exec(Init(cfg), ls); var owners := |OpenGuardsOn(st, ip)| + |OnIp(st.sh.active.Keys, ip)|;
      if ip in st.sh.limits.ipCounts then st.sh.limits.ipCounts[ip] == owners > 0 else owners == 0
  {
    RunInv(cfg, ls);
    var st := Exec(Init(cfg), ls);
    OpenGuardsSize(st, ip);
    OnIpSplit(st.sh.active.Keys, OpenAddrs(st.setups), ip);
  }

  /** The double-release branch is unreachable: not from a finalizer, and not from a guard. */
  lemma {:induction false} NoDoubleRelease(cfg: Config, ls: seq<Label>)
    ensures var st := Exec(Init(cfg), ls);
      && (forall f :: f in st.finalizers ==> !DoubleRelease(st.sh.limits, st.finalizers[f].addr))
      && (forall s :: s in st.setups && st.setups[s].phase.Open() ==> !DoubleRelease(st.sh.limits, st.setups[s].addr))
  {
    RunInv(cfg, ls);
    var st := Exec(Init(cfg), ls);
    var owners := st.sh.active.Keys + OpenAddrs(st.setups);
    forall f | f in st.finalizers
      ensures !DoubleRelease(st.sh.limits, st.finalizers[f].addr)
    {
      ReleaseCharges(st.sh.limits, owners, st.finalizers[f].addr);
    }
    forall s | s in st.setups && st.setups[s].phase.Open()
      ensures !DoubleRelease(st.sh.limits, st.setups[s].addr)
    {
      Holds(st.setups, s);
      ReleaseCharges(st.sh.limits, owners, st.setups[s].addr);
    }
  }

  /** The caps hold in every reachable state, and counting an address once even while it is
      both active and still marked as connecting. */
  lemma {:induction false} AdmissionCaps(cfg: Config, ls: seq<Label>, ip: Ip)
    ensures var st := Exec(Init(cfg), ls);
      && |st.sh.active| + |OpenAddrs(st.setups)| <= cfg.maxConnections
      && |st.sh.active.Keys + st.sh.limits.connecting| <= cfg.maxConnections
      && |OpenGuardsOn(st, ip)| + |OnIp(st.sh.active.Keys, ip)| <= cfg.maxPerIp
  {
    var st := Exec(Init(cfg), ls);
    RunInv(cfg, ls);
    ConfigKept(cfg, ls);
    ChargeConservation(cfg, ls, ip);
    OpenIsGuarded(st.setups);
    TotalCap(st.cfg, st.sh.active.Keys, OpenAddrs(st.setups), st.sh.limits);
  }

  lemma TotalCap(cfg: Config, keys: set<SocketAddr>, open: set<SocketAddr>, limits: LimitsView)
    requires CapsInv(cfg, keys, limits) && keys !! open && open <= limits.connecting
    ensures |keys| + |open| <= cfg.maxConnections
  {
    UnionSize(keys, open);
    assert open - keys == open;
    SubsetSize(keys + open, keys + limits.connecting);
  }

  lemma ConfigStep(st: State, l: Label)
    ensures Next(st, l).cfg == st.cfg
  {
  }

  lemma {:induction false} ConfigKept(cfg: Config, ls: seq<Label>)
    ensures Exec(Init(cfg), ls).cfg == cfg
    decreases |ls|
  {
    if ls != [] {
      ConfigKept(cfg, ls[..|ls| - 1]);
      ConfigStep(Exec(Init(cfg), ls[..|ls| - 1]), ls[|ls| - 1]);
    }
  }

  /** Summing the two sizes instead counts a finishing connection twice and can exceed the cap. */
  lemma SumOfSizesMayExceedTheCap()
    ensures var addr := SocketAddr(V4(0), 0);
      var st := Exec(Init(Config(1, 1, 1)), [AcquirePermit(0, addr), Reserve(0), NewConnection(0, 0), Add(0)]);
      |st.sh.active| + |st.sh.limits.connecting| == 2 > st.cfg.maxConnections
  {
    var addr := SocketAddr(V4(0), 0);
    var ls := [AcquirePermit(0, addr), Reserve(0), NewConnection(0, 0), Add(0)];
    var init := Init(Config(1, 1, 1));
    var s1 := Next(init, ls[0]);
    var s2 := Next(s1, ls[1]);
    var s3 := Next(s2, ls[2]);
    var s4 := Next(s3, ls[3]);
    assert Exec(init, ls[..0]) == init;
    assert ls[..1][..0] == ls[..0] && Exec(init, ls[..1]) == s1;
    assert ls[..2][..1] == ls[..1] && Exec(init, ls[..2]) == s2;
    assert ls[..3][..2] == ls[..2] && Exec(init, ls[..3]) == s3;
    assert Exec(init, ls) == s4;
  }

  /** Whoever reaches the admission check holds a permit that no pending address accounts for,
      so the check's own pending limit never rejects. */
  lemma {:induction false} BudgetDominates(cfg: Config, ls: seq<Label>, s: SetupId)
    requires var st := Exec(Init(cfg), ls); s in st.setups && st.setups[s].phase.Permitted?
    ensures var st := Exec(Init(cfg), ls);
      && |st.sh.limits.connecting| <= cfg.maxConnecting - 1
      && Admit(cfg, st.sh, st.setups[s].addr) != PendingLimit
  {
    var st := Exec(Init(cfg), ls);
    RunInv(cfg, ls);
    ConfigKept(cfg, ls);
    PendingPermits(st.setups, st.sh.limits.connecting, s);
    PendingHasRoom(cfg, st.sh, st.setups[s].addr);
  }

  lemma PendingHasRoom(cfg: Config, sh: Shared, addr: SocketAddr)
    ensures |sh.limits.connecting| < cfg.maxConnecting ==> Admit(cfg, sh, addr) != PendingLimit
  {
  }

  /** Every pending address is covered by a permit of its own. */
  lemma PendingPermits(setups: map<SetupId, Setup>, connecting: set<SocketAddr>, s: SetupId)
    requires GuardsInv(setups, connecting) && s in setups && !setups[s].phase.HoldsGuard()
    ensures |connecting| <= |setups| - 1
  {
    var holders := set t | t in setups && setups[t].phase.HoldsGuard();
    GuardCount(setups, holders);
    assert AddrsOf(setups, holders) == GuardAddrs(setups);
    SubsetSize(holders, setups.Keys - {s});
  }

  // ---- shutdown --------------------------------------------------------------------------

  /** `after` is `before` with some entries gone and some claims added. */
  ghost predicate ShrunkFrom(before: map<SocketAddr, Entry>, after: map<SocketAddr, Entry>) {
    forall a :: a in after ==> a in before && after[a].id == before[a].id && (before[a].claimed ==> after[a].claimed)
  }

  /** Once the shutdown flag is up, the active set only shrinks, through every interleaving. */
  lemma {:induction false} ActiveOnlyShrinks(st: State, more: seq<Label>)
    requires st.sh.underway
    ensures Exec(st, more).sh.underway && ShrunkFrom(st.sh.active, Exec(st, more).sh.active)
    decreases |more|
  {
    if more != [] {
      ActiveOnlyShrinks(st, more[..|more| - 1]);
      var mid := Exec(st, more[..|more| - 1]);
      ShrinkStep(mid, more[|more| - 1]);
    }
  }

  lemma ShrinkStep(st: State, l: Label)
    requires st.sh.underway
    ensures Next(st, l).sh.underway && ShrunkFrom(st.sh.active, Next(st, l).sh.active)
  {
  }

  /** Every entry has been claimed. */
  ghost predicate AllClaimed(st: State) {
    forall a :: a in st.sh.active ==> st.sh.active[a].claimed
  }

  /** No other finalizer is armed for the address. */
  ghost predicate OnlyOwner(st: State, f: FinalizerId, a: SocketAddr) {
    forall g :: g in st.finalizers && st.finalizers[g].addr == a ==> g == f
  }

  /** When a shutdown has tried every claim of its snapshot, whoever won them, each entry left
      is owned by exactly one live finalizer. */
  lemma {:induction false} FanoutLeavesOwners(cfg: Config, ls: seq<Label>, k: CallerId)
    requires var st := Exec(Init(cfg), ls); k in st.callers && st.callers[k].pending == {}
    ensures var st := Exec(Init(cfg), ls);
      && st.sh.underway && AllClaimed(st)
      && (forall a :: a in st.sh.active ==>
            exists f :: Owns(st, f, a, st.sh.active[a].id) && OnlyOwner(st, f, a))
  {
    RunInv(cfg, ls);
    var st := Exec(Init(cfg), ls);
    forall a | a in st.sh.active
      ensures exists f :: Owns(st, f, a, st.sh.active[a].id) && OnlyOwner(st, f, a)
    {
      assert st.sh.active[a].claimed;
      var f :| f in st.finalizers && st.finalizers[f].addr == a;
      assert Owns(st, f, a, st.sh.active[a].id);
    }
  }

  /** From there on no finalizer appears, and each drop that takes effect removes one entry: the
      number of active entries is a termination measure. */
  lemma DrainStep(st: State, l: Label)
    requires Claims(st) && st.sh.underway && AllClaimed(st)
    ensures var st' := Next(st, l);
      && st'.sh.underway && AllClaimed(st')
      && (if l.FinalizerDrop? && l.f in st.finalizers
          then st'.finalizers == st.finalizers - {l.f} && |st'.sh.active| == |st.sh.active| - 1
          else st'.finalizers == st.finalizers && st'.sh.active == st.sh.active)
  {
    if l.FinalizerDrop? {
      if l.f in st.finalizers {
        DropDrains(st, l.f);
      }
    } else {
      OtherDrainStep(st, l);
    }
  }

  lemma DropDrains(st: State, f: FinalizerId)
    requires Claims(st) && AllClaimed(st) && f in st.finalizers
    ensures var st' := FinalizeStep(st, f);
      && st'.sh.underway == st.sh.underway && AllClaimed(st')
      && st'.finalizers == st.finalizers - {f} && |st'.sh.active| == |st.sh.active| - 1
  {
    FinalizeShrinks(st, f);
  }

  lemma NothingToClaim(st: State, f: FinalizerId, addr: SocketAddr, want: Option<ConnId>)
    requires AllClaimed(st) && f !in st.finalizers
    ensures ClaimStep(st, f, addr, want) == st
  {
  }

  lemma OtherDrainStep(st: State, l: Label)
    requires st.sh.underway && AllClaimed(st) && !l.FinalizerDrop?
    ensures var st' := Next(st, l);
      st'.sh.underway && st'.finalizers == st.finalizers && st'.sh.active == st.sh.active
  {
    if Enabled(st, l) {
      match l {
        case Claim(f, addr, want) => NothingToClaim(st, f, addr, want);
        case Attempt(k, addr, f) => NothingToClaim(st, f, addr, None);
        case _ =>
      }
    }
  }

  /** The drain ends: every interleaving in which each live finalizer drops leaves nothing in
      the active set, and takes exactly as many effective drops as there were entries. A drop is
      all a finalizer needs, so this covers disconnect futures that were dropped too. */
  lemma {:induction false} DrainCompletes(st: State, more: seq<Label>)
    requires Inv(st) && st.sh.underway && AllClaimed(st)
    requires forall f :: f in st.finalizers ==> FinalizerDrop(f) in more
    ensures Exec(st, more).sh.active == map[]
    ensures |st.sh.active| == |st.finalizers|
  {
    DrainProgress(st, more);
    ExecInv(st, more);
    DrainEnd(st, Exec(st, more), more);
  }

  lemma {:induction false} DrainEnd(st: State, end: State, more: seq<Label>)
    requires Claims(end) && AllClaimed(end) && Drained(st, end) && NoneLeft(more, end.finalizers)
    requires forall f :: f in st.finalizers ==> FinalizerDrop(f) in more
    ensures end.sh.active == map[] && |st.sh.active| == |st.finalizers|
  {
    AllDropped(st.finalizers, end.finalizers, more);
    assert st.finalizers.Keys - end.finalizers.Keys == st.finalizers.Keys;
    NobodyLeft(end);
  }

  lemma {:induction false} AllDropped(before: map<FinalizerId, Finalizer>, after: map<FinalizerId, Finalizer>,
                                      more: seq<Label>)
    requires after.Keys <= before.Keys && NoneLeft(more, after)
    requires forall f :: f in before ==> FinalizerDrop(f) in more
    ensures after == map[]
  {
    forall f | f in before
      ensures f !in after
    {
      var i :| 0 <= i < |more| && more[i] == FinalizerDrop(f);
    }
  }

  lemma NobodyLeft(st: State)
    requires Claims(st) && AllClaimed(st) && st.finalizers == map[]
    ensures st.sh.active == map[]
  {
  }

  /** What a drained run has done since `st`. */
  ghost predicate Drained(st: State, end: State) {
    && end.finalizers.Keys <= st.finalizers.Keys
    && |st.sh.active| - |end.sh.active| == |st.finalizers.Keys - end.finalizers.Keys|
  }

  lemma DrainedStep(st: State, mid: State, end: State, f: FinalizerId)
    requires Drained(st, mid) && f in mid.finalizers
    requires end.finalizers == mid.finalizers - {f} && |end.sh.active| == |mid.sh.active| - 1
    ensures Drained(st, end)
  {
    assert st.finalizers.Keys - end.finalizers.Keys == (st.finalizers.Keys - mid.finalizers.Keys) + {f};
  }

  /** None of the finalizers that `more` drops is among `live`. */
  ghost predicate NoneLeft(more: seq<Label>, live: map<FinalizerId, Finalizer>) {
    forall i :: 0 <= i < |more| && more[i].FinalizerDrop? ==> more[i].f !in live
  }

  lemma {:induction false} DrainProgress(st: State, more: seq<Label>)
    requires Inv(st) && st.sh.underway && AllClaimed(st)
    ensures var end := Exec(st, more);
      end.sh.underway && AllClaimed(end) && Drained(st, end) && NoneLeft(more, end.finalizers)
    decreases |more|
  {
    if more != [] {
      DrainProgress(st, more[..|more| - 1]);
      var mid := Exec(st, more[..|more| - 1]);
      assert Claims(mid) by { ExecInv(st, more[..|more| - 1]); }
      DrainExtends(st, mid, more[|more| - 1]);
      NoneLeftExtends(more, mid.finalizers, Exec(st, more).finalizers);
    }
  }

  lemma {:induction false} NoneLeftExtends(more: seq<Label>, mid: map<FinalizerId, Finalizer>,
                                           end: map<FinalizerId, Finalizer>)
    requires more != [] && NoneLeft(more[..|more| - 1], mid) && end.Keys <= mid.Keys
    requires more[|more| - 1].FinalizerDrop? ==> more[|more| - 1].f !in end
    ensures NoneLeft(more, end)
  {
    assert forall i :: 0 <= i < |more| - 1 ==> more[i] == more[..|more| - 1][i];
  }

  lemma DrainExtends(st: State, mid: State, l: Label)
    requires Claims(mid) && mid.sh.underway && AllClaimed(mid) && Drained(st, mid)
    ensures var end := Next(mid, l);
      && end.sh.underway && AllClaimed(end) && Drained(st, end)
      && end.finalizers.Keys <= mid.finalizers.Keys
      && (l.FinalizerDrop? ==> l.f !in end.finalizers)
  {
    DrainStep(mid, l);
    if l.FinalizerDrop? && l.f in mid.finalizers {
      DrainedStep(st, mid, Next(mid, l), l.f);
    }
  }
}
