/**
 Who owns the node's long-lived tasks: the listener and the five protocol handlers.

 A task is spawned by a `toggle_listener` or `enable_*` future, which keeps it in an
 abort-on-drop guard until the node's task map adopts it. `shut_down` moves the whole map into
 guards of its own. Futures may be dropped at any await; what they then own is aborted. The
 listening address has its own lock, held by a toggle from its first step to its last.
 */
module TaskOwnership {
  import opened Util

  type TaskId = nat
  type FutureId = nat

  datatype Kind = Listener | OnDisconnect | Handshake | OnConnect | Reading | Writing

  /** A live abort-on-drop guard: of a toggle or enable future, or of a shutdown. */
  datatype Guard = FutureGuard(who: FutureId) | ShutdownGuard(who: FutureId, kind: Kind)

  /** Where a future is. Every phase but `ToggleRegistered` is an await or ends in one. */
  datatype Future =
    | ToggleLocked
    | ToggleSpawned
    | ToggleRegistered
    | EnableSpawned(kind: Kind)
    | ShuttingDown
  {
    predicate Toggles() { ToggleLocked? || ToggleSpawned? || ToggleRegistered? }
    predicate Guards() { ToggleSpawned? || EnableSpawned? }
  }

  datatype State = State(
    underway: bool,
    taken: bool,
    tasks: map<Kind, TaskId>,
    guards: map<Guard, TaskId>,
    futures: map<FutureId, Future>,
    enabled: set<Kind>,
    addrSet: bool,
    addrHolder: Option<FutureId>,
    spawned: set<TaskId>,
    aborted: set<TaskId>
  )

  datatype Label =
    | ToggleLock(u: FutureId)
    | ToggleOff(u: FutureId)
    | ToggleSpawn(u: FutureId, t: TaskId)
    | ToggleRegister(u: FutureId)
    | ToggleSet(u: FutureId)
    | ToggleCancel(u: FutureId)
    | EnableSpawn(u: FutureId, kind: Kind, t: TaskId)
    | EnableRegister(u: FutureId)
    | EnableCancel(u: FutureId)
    | Begin
    | Take(u: FutureId)
    | DropTaken(u: FutureId, kind: Kind)
    | ClearAddress(u: FutureId)
    | ShutdownEnd(u: FutureId)

  const FRESH: State := State(false, false, map[], map[], map[], {}, false, None, {}, {})

  predicate At(st: State, u: FutureId, f: Future) {
    u in st.futures && st.futures[u] == f
  }

  /** The guards into which a shutdown moves the task map. */
  function TakenGuards(tasks: map<Kind, TaskId>, u: FutureId): map<Guard, TaskId> {
    map kind | kind in tasks :: ShutdownGuard(u, kind) := tasks[kind]
  }

  predicate Enabled(st: State, l: Label) {
    match l
    case ToggleLock(u) => u !in st.futures && st.addrHolder.None?
    case ToggleOff(u) => At(st, u, ToggleLocked) && st.addrSet
    case ToggleSpawn(u, t) => At(st, u, ToggleLocked) && !st.addrSet && t !in st.spawned
    case ToggleRegister(u) => At(st, u, ToggleSpawned) && FutureGuard(u) in st.guards
    case ToggleSet(u) => At(st, u, ToggleRegistered)
    case ToggleCancel(u) => At(st, u, ToggleLocked) || (At(st, u, ToggleSpawned) && FutureGuard(u) in st.guards)
    case EnableSpawn(u, kind, t) => u !in st.futures && kind != Listener && kind !in st.enabled && t !in st.spawned
    case EnableRegister(u) => u in st.futures && st.futures[u].EnableSpawned? && FutureGuard(u) in st.guards
    case EnableCancel(u) => u in st.futures && st.futures[u].EnableSpawned? && FutureGuard(u) in st.guards
    case Begin => true
    case Take(u) => u !in st.futures && st.underway
    case DropTaken(u, kind) => ShutdownGuard(u, kind) in st.guards
    case ClearAddress(u) => At(st, u, ShuttingDown) && st.addrHolder.None?
    case ShutdownEnd(u) => At(st, u, ShuttingDown) && forall kind :: ShutdownGuard(u, kind) !in st.guards
  }

  /** `register_task`: under the task lock, the node adopts the task unless it is shutting down. */
  function Adopted(st: State, u: FutureId, kind: Kind): State
    requires FutureGuard(u) in st.guards
  {
    var t := st.guards[FutureGuard(u)];
    var released := st.(guards := st.guards - {FutureGuard(u)});
    if st.underway then released.(aborted := st.aborted + {t}) else released.(tasks := st.tasks[kind := t])
  }

  function Aborted(st: State, g: Guard): State
    requires g in st.guards
  {
    st.(guards := st.guards - {g}, aborted := st.aborted + {st.guards[g]})
  }

  function Unlocked(st: State, u: FutureId): State {
    st.(futures := st.futures - {u}, addrHolder := None)
  }

  function Apply(st: State, l: Label): State
    requires Enabled(st, l)
  {
    match l
    case ToggleLock(u) => st.(futures := st.futures[u := ToggleLocked], addrHolder := Some(u))
    case ToggleOff(u) =>
      if Listener in st.tasks
      then Unlocked(st.(tasks := st.tasks - {Listener},
                        aborted := st.aborted + {st.tasks[Listener]},
                        addrSet := false), u)
      else Unlocked(st, u)
    case ToggleSpawn(u, t) =>
      st.(spawned := st.spawned + {t},
          guards := st.guards[FutureGuard(u) := t],
          futures := st.futures[u := ToggleSpawned])
    case ToggleRegister(u) =>
      var st' := Adopted(st, u, Listener);
      if st.underway then Unlocked(st', u) else st'.(futures := st.futures[u := ToggleRegistered])
    case ToggleSet(u) => Unlocked(st.(addrSet := true), u)
    case ToggleCancel(u) => Unlocked(if st.futures[u].ToggleSpawned? then Aborted(st, FutureGuard(u)) else st, u)
    case EnableSpawn(u, kind, t) =>
      st.(spawned := st.spawned + {t}, guards := st.guards[FutureGuard(u) := t],
          futures := st.futures[u := EnableSpawned(kind)], enabled := st.enabled + {kind})
    case EnableRegister(u) =>
      var kind := st.futures[u].kind;
      Adopted(st, u, kind).(futures := st.futures - {u},
                            enabled := if st.underway then st.enabled - {kind} else st.enabled)
    case EnableCancel(u) =>
      Aborted(st, FutureGuard(u)).(futures := st.futures - {u}, enabled := st.enabled - {st.futures[u].kind})
    case Begin => st.(underway := true)
    case Take(u) =>
      st.(taken := true, tasks := map[],
          guards := st.guards + TakenGuards(st.tasks, u),
          futures := st.futures[u := ShuttingDown])
    case DropTaken(u, kind) => Aborted(st, ShutdownGuard(u, kind))
    case ClearAddress(u) => st.(addrSet := false)
    case ShutdownEnd(u) => st.(futures := st.futures - {u})
  }

  function Next(st: State, l: Label): State {
    if Enabled(st, l) then Apply(st, l) else st
  }

  function Exec(st: State, ls: seq<Label>): State
    decreases |ls|
  {
    if ls == [] then st else Next(Exec(st, ls[..|ls| - 1]), ls[|ls| - 1])
  }

  // ---- the invariant ---------------------------------------------------------------------

  ghost predicate InMap(tasks: map<Kind, TaskId>, t: TaskId) {
    exists kind :: kind in tasks && tasks[kind] == t
  }

  ghost predicate InGuard(guards: map<Guard, TaskId>, t: TaskId) {
    exists g :: g in guards && guards[g] == t
  }

  /** Nobody owns a task twice, and an owned task was spawned and not aborted. */
  ghost predicate OwnersApart(tasks: map<Kind, TaskId>, guards: map<Guard, TaskId>, spawned: set<TaskId>,
                              aborted: set<TaskId>) {
    && (forall a, b :: a in tasks && b in tasks && a != b ==> tasks[a] != tasks[b])
    && (forall a, b :: a in guards && b in guards && a != b ==> guards[a] != guards[b])
    && (forall a, b :: a in tasks && b in guards ==> tasks[a] != guards[b])
    && (forall a :: a in tasks ==> tasks[a] in spawned && tasks[a] !in aborted)
    && (forall a :: a in guards ==> guards[a] in spawned && guards[a] !in aborted)
    && aborted <= spawned
  }

  /** Every task that was spawned has an owner, or has been aborted. */
  ghost predicate Accounted(tasks: map<Kind, TaskId>, guards: map<Guard, TaskId>, spawned: set<TaskId>,
                            aborted: set<TaskId>) {
    forall t :: t in spawned ==> InMap(tasks, t) || InGuard(guards, t) || t in aborted
  }

  /** The guards are those of the futures at work. */
  ghost predicate GuardsInv(futures: map<FutureId, Future>, guards: map<Guard, TaskId>) {
    && (forall u :: u in futures && futures[u].Guards() ==> FutureGuard(u) in guards)
    && (forall g :: g in guards && g.FutureGuard? ==> g.who in futures && futures[g.who].Guards())
    && (forall g :: g in guards && g.ShutdownGuard? ==> g.who in futures && futures[g.who].ShuttingDown?)
  }

  /** The address lock is held by the one toggle at work. */
  ghost predicate LockInv(futures: map<FutureId, Future>, holder: Option<FutureId>) {
    && (forall u :: u in futures && futures[u].Toggles() ==> holder == Some(u))
    && (holder.Some? ==> holder.value in futures && futures[holder.value].Toggles())
  }

  ghost predicate FuturesInv(futures: map<FutureId, Future>, guards: map<Guard, TaskId>, holder: Option<FutureId>) {
    GuardsInv(futures, guards) && LockInv(futures, holder)
  }

  /** A handler kind is enabled once: in the map, or by one future at work. */
  ghost predicate EnablesInv(tasks: map<Kind, TaskId>, futures: map<FutureId, Future>, enabled: set<Kind>) {
    && (forall kind :: kind in tasks && kind != Listener ==> kind in enabled)
    && (forall u :: u in futures && futures[u].EnableSpawned? ==>
          futures[u].kind in enabled && futures[u].kind !in tasks && futures[u].kind != Listener)
    && (forall u, v :: u in futures && v in futures && u != v && futures[u].EnableSpawned? && futures[v].EnableSpawned?
         ==> futures[u].kind != futures[v].kind)
  }

  /** The address is set exactly when a listener is registered, but for a toggle between its two updates. */
  ghost predicate ListenerInv(st: State) {
    if st.addrHolder.None? || st.addrHolder.value !in st.futures || st.futures[st.addrHolder.value].ToggleLocked?
    then st.addrSet <==> Listener in st.tasks
    else !st.addrSet && (st.futures[st.addrHolder.value].ToggleRegistered? <==> Listener in st.tasks)
  }

  /** Once a shutdown has taken the map, it stays empty; until then address and listener agree. */
  ghost predicate AddressInv(st: State) {
    && (st.taken ==> st.underway && st.tasks == map[])
    && (!st.taken ==> ListenerInv(st))
    && (forall u :: u in st.futures && st.futures[u].ShuttingDown? ==> st.taken)
  }

  ghost predicate Owned(st: State) {
    OwnersApart(st.tasks, st.guards, st.spawned, st.aborted) && Accounted(st.tasks, st.guards, st.spawned, st.aborted)
  }

  ghost predicate Inv(st: State) {
    && Owned(st)
    && FuturesInv(st.futures, st.guards, st.addrHolder)
    && EnablesInv(st.tasks, st.futures, st.enabled)
    && AddressInv(st)
  }

  // ---- how ownership moves ---------------------------------------------------------------

  lemma SpawnOwned(tasks: map<Kind, TaskId>, guards: map<Guard, TaskId>, spawned: set<TaskId>, aborted: set<TaskId>,
                   g: Guard, t: TaskId)
    requires OwnersApart(tasks, guards, spawned, aborted) && Accounted(tasks, guards, spawned, aborted)
    requires g !in guards && t !in spawned
    ensures OwnersApart(tasks, guards[g := t], spawned + {t}, aborted)
        && Accounted(tasks, guards[g := t], spawned + {t}, aborted)
  {
    var guards' := guards[g := t];
    assert guards'[g] == t;
    forall x | x in spawned && InGuard(guards, x)
      ensures InGuard(guards', x)
    {
      var h :| h in guards && guards[h] == x;
      assert guards'[h] == x;
    }
  }

  /** A guard's task is adopted by the map under a free kind. */
  lemma AdoptOwned(tasks: map<Kind, TaskId>, guards: map<Guard, TaskId>, spawned: set<TaskId>, aborted: set<TaskId>,
                   g: Guard, kind: Kind)
    requires OwnersApart(tasks, guards, spawned, aborted) && Accounted(tasks, guards, spawned, aborted)
    requires g in guards && kind !in tasks
    ensures OwnersApart(tasks[kind := guards[g]], guards - {g}, spawned, aborted)
    ensures Accounted(tasks[kind := guards[g]], guards - {g}, spawned, aborted)
  {
    var tasks' := tasks[kind := guards[g]];
    assert tasks'[kind] == guards[g];
    forall x | x in spawned && (InMap(tasks, x) || InGuard(guards, x))
      ensures InMap(tasks', x) || InGuard(guards - {g}, x)
    {
      if k :| k in tasks && tasks[k] == x {
        assert tasks'[k] == x;
      } else {
        var h :| h in guards && guards[h] == x;
        assert h != g ==> (guards - {g})[h] == x;
      }
    }
  }

  lemma AbortGuardOwned(tasks: map<Kind, TaskId>, guards: map<Guard, TaskId>, spawned: set<TaskId>,
                        aborted: set<TaskId>, g: Guard)
    requires OwnersApart(tasks, guards, spawned, aborted) && Accounted(tasks, guards, spawned, aborted) && g in guards
    ensures OwnersApart(tasks, guards - {g}, spawned, aborted + {guards[g]})
    ensures Accounted(tasks, guards - {g}, spawned, aborted + {guards[g]})
  {
    forall x | x in spawned && InGuard(guards, x)
      ensures InGuard(guards - {g}, x) || x == guards[g]
    {
      var h :| h in guards && guards[h] == x;
      assert h != g ==> (guards - {g})[h] == x;
    }
  }

  lemma AbortTaskOwned(tasks: map<Kind, TaskId>, guards: map<Guard, TaskId>, spawned: set<TaskId>, aborted: set<TaskId>,
                       kind: Kind)
    requires OwnersApart(tasks, guards, spawned, aborted) && Accounted(tasks, guards, spawned, aborted) && kind in tasks
    ensures OwnersApart(tasks - {kind}, guards, spawned, aborted + {tasks[kind]})
    ensures Accounted(tasks - {kind}, guards, spawned, aborted + {tasks[kind]})
  {
    forall x | x in spawned && InMap(tasks, x)
      ensures InMap(tasks - {kind}, x) || x == tasks[kind]
    {
      var k :| k in tasks && tasks[k] == x;
      assert k != kind ==> (tasks - {kind})[k] == x;
    }
  }

  lemma TakeOwned(tasks: map<Kind, TaskId>, guards: map<Guard, TaskId>, spawned: set<TaskId>, aborted: set<TaskId>,
                  u: FutureId)
    requires OwnersApart(tasks, guards, spawned, aborted)
    requires forall kind :: ShutdownGuard(u, kind) !in guards
    ensures OwnersApart(map[], guards + TakenGuards(tasks, u), spawned, aborted)
  {
    var guards' := guards + TakenGuards(tasks, u);
    forall g | g in guards'
      ensures if g in guards then guards'[g] == guards[g]
        else g.ShutdownGuard? && g.kind in tasks && guards'[g] == tasks[g.kind] && g.who == u
    {
    }
  }

  lemma TakeAccounted(tasks: map<Kind, TaskId>, guards: map<Guard, TaskId>, spawned: set<TaskId>, aborted: set<TaskId>,
                      u: FutureId)
    requires Accounted(tasks, guards, spawned, aborted)
    requires forall kind :: ShutdownGuard(u, kind) !in guards
    ensures Accounted(map[], guards + TakenGuards(tasks, u), spawned, aborted)
  {
    var guards' := guards + TakenGuards(tasks, u);
    forall x | x in spawned && (InMap(tasks, x) || InGuard(guards, x))
      ensures InGuard(guards', x)
    {
      if k :| k in tasks && tasks[k] == x {
        assert guards'[ShutdownGuard(u, k)] == x;
      } else {
        var h :| h in guards && guards[h] == x;
        assert guards'[h] == x;
      }
    }
  }

  // ---- every step keeps the invariant ----------------------------------------------------

  lemma StepOwned(st: State, l: Label)
    requires Inv(st) && Enabled(st, l)
    ensures Owned(Apply(st, l))
  {
    match l
    case ToggleSpawn(u, t) => SpawnOwned(st.tasks, st.guards, st.spawned, st.aborted, FutureGuard(u), t);
    case EnableSpawn(u, kind, t) => SpawnOwned(st.tasks, st.guards, st.spawned, st.aborted, FutureGuard(u), t);
    case ToggleOff(u) =>
      if Listener in st.tasks {
        AbortTaskOwned(st.tasks, st.guards, st.spawned, st.aborted, Listener);
      }
    case ToggleRegister(u) => RegisterOwned(st, u, Listener);
    case EnableRegister(u) => RegisterOwned(st, u, st.futures[u].kind);
    case ToggleCancel(u) =>
      if st.futures[u].ToggleSpawned? {
        AbortGuardOwned(st.tasks, st.guards, st.spawned, st.aborted, FutureGuard(u));
      }
    case EnableCancel(u) => AbortGuardOwned(st.tasks, st.guards, st.spawned, st.aborted, FutureGuard(u));
    case Take(u) =>
      TakeOwned(st.tasks, st.guards, st.spawned, st.aborted, u);
      TakeAccounted(st.tasks, st.guards, st.spawned, st.aborted, u);
    case DropTaken(u, kind) => AbortGuardOwned(st.tasks, st.guards, st.spawned, st.aborted, ShutdownGuard(u, kind));
    case _ =>
  }

  lemma RegisterOwned(st: State, u: FutureId, kind: Kind)
    requires Owned(st) && FutureGuard(u) in st.guards
    requires st.underway || kind !in st.tasks
    ensures Owned(Adopted(st, u, kind))
  {
    if st.underway {
      AbortGuardOwned(st.tasks, st.guards, st.spawned, st.aborted, FutureGuard(u));
    } else {
      AdoptOwned(st.tasks, st.guards, st.spawned, st.aborted, FutureGuard(u), kind);
    }
  }

  predicate OfToggle(l: Label) {
    l.ToggleLock? || l.ToggleOff? || l.ToggleSpawn? || l.ToggleRegister? || l.ToggleSet? || l.ToggleCancel?
  }

  predicate OfEnable(l: Label) {
    l.EnableSpawn? || l.EnableRegister? || l.EnableCancel?
  }

  lemma FutureEnds(futures: map<FutureId, Future>, guards: map<Guard, TaskId>, u: FutureId)
    requires GuardsInv(futures, guards) && u in futures && !futures[u].ShuttingDown?
    ensures GuardsInv(futures - {u}, guards - {FutureGuard(u)})
  {
  }

  lemma ToggleGuards(st: State, l: Label)
    requires GuardsInv(st.futures, st.guards) && OfToggle(l) && Enabled(st, l)
    ensures var st' := Apply(st, l); GuardsInv(st'.futures, st'.guards)
  {
    if !l.ToggleLock? && l.u !in Apply(st, l).futures {
      FutureEnds(st.futures, st.guards, l.u);
      assert Apply(st, l).guards == st.guards - {FutureGuard(l.u)};
    }
  }

  lemma EnableGuards(st: State, l: Label)
    requires GuardsInv(st.futures, st.guards) && OfEnable(l) && Enabled(st, l)
    ensures var st' := Apply(st, l); GuardsInv(st'.futures, st'.guards)
  {
    if !l.EnableSpawn? {
      FutureEnds(st.futures, st.guards, l.u);
      assert Apply(st, l).guards == st.guards - {FutureGuard(l.u)};
    }
  }

  lemma ShutdownGuards(st: State, l: Label)
    requires GuardsInv(st.futures, st.guards) && !OfToggle(l) && !OfEnable(l) && Enabled(st, l)
    ensures var st' := Apply(st, l); GuardsInv(st'.futures, st'.guards)
  {
  }

  lemma ToggleLocks(st: State, l: Label)
    requires LockInv(st.futures, st.addrHolder) && OfToggle(l) && Enabled(st, l)
    ensures var st' := Apply(st, l); LockInv(st'.futures, st'.addrHolder)
  {
  }

  lemma EnableLocks(st: State, l: Label)
    requires LockInv(st.futures, st.addrHolder) && OfEnable(l) && Enabled(st, l)
    ensures var st' := Apply(st, l); LockInv(st'.futures, st'.addrHolder)
  {
  }

  lemma ShutdownLocks(st: State, l: Label)
    requires LockInv(st.futures, st.addrHolder) && !OfToggle(l) && !OfEnable(l) && Enabled(st, l)
    ensures var st' := Apply(st, l); LockInv(st'.futures, st'.addrHolder)
  {
  }

  lemma StepFutures(st: State, l: Label)
    requires FuturesInv(st.futures, st.guards, st.addrHolder) && Enabled(st, l)
    ensures var st' := Apply(st, l); FuturesInv(st'.futures, st'.guards, st'.addrHolder)
  {
    if OfToggle(l) {
      ToggleGuards(st, l);
      ToggleLocks(st, l);
    } else if OfEnable(l) {
      EnableGuards(st, l);
      EnableLocks(st, l);
    } else {
      ShutdownGuards(st, l);
      ShutdownLocks(st, l);
    }
  }

  lemma EnableStarts(st: State, u: FutureId, kind: Kind, t: TaskId)
    requires EnablesInv(st.tasks, st.futures, st.enabled) && Enabled(st, EnableSpawn(u, kind, t))
    ensures var st' := Apply(st, EnableSpawn(u, kind, t)); EnablesInv(st'.tasks, st'.futures, st'.enabled)
  {
  }

  lemma EnableEnds(st: State, l: Label)
    requires EnablesInv(st.tasks, st.futures, st.enabled) && (l.EnableRegister? || l.EnableCancel?) && Enabled(st, l)
    ensures var st' := Apply(st, l); EnablesInv(st'.tasks, st'.futures, st'.enabled)
  {
  }

  lemma EnableEnables(st: State, l: Label)
    requires EnablesInv(st.tasks, st.futures, st.enabled) && OfEnable(l) && Enabled(st, l)
    ensures var st' := Apply(st, l); EnablesInv(st'.tasks, st'.futures, st'.enabled)
  {
    if l.EnableSpawn? {
      EnableStarts(st, l.u, l.kind, l.t);
    } else {
      EnableEnds(st, l);
    }
  }

  /** Only enables matter to `EnablesInv`, and only the listener may join the map beside them. */
  lemma EnablesFrame(tasks: map<Kind, TaskId>, futures: map<FutureId, Future>, enabled: set<Kind>,
                     tasks': map<Kind, TaskId>, futures': map<FutureId, Future>)
    requires EnablesInv(tasks, futures, enabled)
    requires forall kind :: kind in tasks' ==> kind in tasks || kind == Listener
    requires forall u :: u in futures' && futures'[u].EnableSpawned? ==> u in futures && futures[u] == futures'[u]
    ensures EnablesInv(tasks', futures', enabled)
  {
  }

  lemma OtherEnables(st: State, l: Label)
    requires EnablesInv(st.tasks, st.futures, st.enabled) && !OfEnable(l) && Enabled(st, l)
    ensures var st' := Apply(st, l); EnablesInv(st'.tasks, st'.futures, st'.enabled)
  {
    var st' := Apply(st, l);
    EnablesFrame(st.tasks, st.futures, st.enabled, st'.tasks, st'.futures);
  }

  lemma StepEnables(st: State, l: Label)
    requires EnablesInv(st.tasks, st.futures, st.enabled) && Enabled(st, l)
    ensures var st' := Apply(st, l); EnablesInv(st'.tasks, st'.futures, st'.enabled)
  {
    if OfEnable(l) {
      EnableEnables(st, l);
    } else {
      OtherEnables(st, l);
    }
  }

  lemma ToggleAddress(st: State, l: Label)
    requires LockInv(st.futures, st.addrHolder) && AddressInv(st)
    requires OfToggle(l) && Enabled(st, l)
    ensures AddressInv(Apply(st, l))
  {
  }

  lemma OtherAddress(st: State, l: Label)
    requires LockInv(st.futures, st.addrHolder) && EnablesInv(st.tasks, st.futures, st.enabled) && AddressInv(st)
    requires !OfToggle(l) && Enabled(st, l)
    ensures AddressInv(Apply(st, l))
  {
  }

  lemma StepAddress(st: State, l: Label)
    requires LockInv(st.futures, st.addrHolder) && EnablesInv(st.tasks, st.futures, st.enabled)
    requires AddressInv(st) && Enabled(st, l)
    ensures AddressInv(Apply(st, l))
  {
    if OfToggle(l) {
      ToggleAddress(st, l);
    } else {
      OtherAddress(st, l);
    }
  }

  lemma StepInv(st: State, l: Label)
    requires Inv(st)
    ensures Inv(Next(st, l))
  {
    if Enabled(st, l) {
      StepOwned(st, l);
      StepFutures(st, l);
      StepEnables(st, l);
      StepAddress(st, l);
    }
  }

  lemma {:induction false} ExecInv(st: State, ls: seq<Label>)
    requires Inv(st)
    ensures Inv(Exec(st, ls))
    decreases |ls|
  {
    if ls != [] {
      ExecInv(st, ls[..|ls| - 1]);
      StepInv(Exec(st, ls[..|ls| - 1]), ls[|ls| - 1]);
    }
  }

  // ---- what this means -------------------------------------------------------------------

  ghost function KindsOf(st: State, t: TaskId): set<Kind> {
    set kind | kind in st.tasks && st.tasks[kind] == t
  }

  ghost function GuardsOf(st: State, t: TaskId): set<Guard> {
    set g | g in st.guards && st.guards[g] == t
  }

  /** How many owners a task has: map entries, guards, and the abort that ended it. */
  ghost function Owners(st: State, t: TaskId): nat {
    |KindsOf(st, t)| + |GuardsOf(st, t)| + if t in st.aborted then 1 else 0
  }

  lemma OneOwner(st: State, t: TaskId)
    requires Owned(st)
    ensures Owners(st, t) == if t in st.spawned then 1 else 0
  {
    if kind :| kind in st.tasks && st.tasks[kind] == t {
      assert KindsOf(st, t) == {kind} && GuardsOf(st, t) == {};
    } else if g :| g in st.guards && st.guards[g] == t {
      assert KindsOf(st, t) == {} && GuardsOf(st, t) == {g};
    } else {
      assert KindsOf(st, t) == {} && GuardsOf(st, t) == {};
    }
  }

  /** In every run, a task that was spawned is in exactly one hand: registered under one kind,
      held by one guard, or aborted. None is detached and none is claimed twice. */
  lemma {:induction false} EveryTaskHasOneOwner(ls: seq<Label>, t: TaskId)
    ensures var st := Exec(FRESH, ls); Owners(st, t) == if t in st.spawned then 1 else 0
  {
    ExecInv(FRESH, ls);
    OneOwner(Exec(FRESH, ls), t);
  }

  /** Registration always finds its kind free: in no run does it displace a task. */
  lemma {:induction false} RegistrationNeverDisplaces(ls: seq<Label>, u: FutureId)
    ensures var st := Exec(FRESH, ls);
      !st.underway ==>
        && (Enabled(st, ToggleRegister(u)) ==> Listener !in st.tasks)
        && (Enabled(st, EnableRegister(u)) ==> st.futures[u].kind !in st.tasks)
  {
    ExecInv(FRESH, ls);
  }

  /** Whenever nobody holds the address lock and no shutdown has taken the tasks, the node
      reports a listening address exactly when a listener task is registered. */
  lemma {:induction false} AddressMeansListener(ls: seq<Label>)
    ensures var st := Exec(FRESH, ls);
      st.addrHolder.None? && !st.taken ==> (st.addrSet <==> Listener in st.tasks)
  {
    ExecInv(FRESH, ls);
  }

  /** A toggle that finds an address but no listener task is in a node being shut down. */
  lemma {:induction false} MissingListenerMeansShutdown(ls: seq<Label>, u: FutureId)
    ensures var st := Exec(FRESH, ls);
      Enabled(st, ToggleOff(u)) && Listener !in st.tasks ==> st.underway
  {
    ExecInv(FRESH, ls);
  }

  /** The tasks are taken and the address is cleared, with no toggle about to set it. */
  ghost predicate Final(st: State) {
    && st.underway && st.tasks == map[] && !st.addrSet
    && forall u :: u in st.futures ==> !st.futures[u].ToggleRegistered?
  }

  lemma FinalStep(st: State, l: Label)
    requires Final(st)
    ensures Final(Next(st, l))
  {
  }

  /** Nothing is registered once a shutdown has taken the tasks, and the address it clears
      stays cleared, whatever toggles, enables and shutdowns follow. */
  lemma {:induction false} ShutdownIsFinal(st: State, ls: seq<Label>)
    requires Inv(st) && st.taken && !st.addrSet && st.addrHolder.None?
    ensures Final(Exec(st, ls))
    decreases |ls|
  {
    if ls != [] {
      ShutdownIsFinal(st, ls[..|ls| - 1]);
      FinalStep(Exec(st, ls[..|ls| - 1]), ls[|ls| - 1]);
    }
  }
}
