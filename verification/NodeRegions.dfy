/**
 The lock regions of the node as it runs them, in place: the code between taking and releasing
 the `limits` and `active` locks. Each method changes the node's fields statement by statement
 and is shown to have exactly the effect that one step of `Lifecycle` gives it.
 */
module NodeRegions {
  import opened Util
  import opened Net
  import opened Limits
  import opened Lifecycle
  import S = SenderMap
  import T = TaskOwnership

  /** The configuration a node runs with, or nothing where `Node::new` panics. Clamping the setup
      budget never changes who is admitted: a surplus could not have been used. */
  function Accepted(cfg: Config): (r: Option<Config>)
    ensures r.None? <==> cfg.maxConnections == 0 || cfg.maxPerIp == 0 || cfg.maxConnecting == 0
    ensures r.Some? ==> 0 < r.value.maxConnecting <= r.value.maxConnections
    ensures r.Some? ==>
      forall sh, addr :: Admit(r.value, sh, addr).Admitted? <==> Admit(cfg, sh, addr).Admitted?
  {
    if cfg.maxConnections == 0 || cfg.maxPerIp == 0 || cfg.maxConnecting == 0 then None
    else if cfg.maxConnecting > cfg.maxConnections then Some(cfg.(maxConnecting := cfg.maxConnections))
    else Some(cfg)
  }

  class Node {
    const cfg: Config
    var active: map<SocketAddr, Entry>
    const limits: ConnectionLimits
    var underway: bool

    constructor (cfg: Config)
      ensures this.cfg == cfg && View() == Init(cfg).sh
      ensures fresh(limits)
    {
      this.cfg := cfg;
      active, underway := map[], false;
      limits := new ConnectionLimits();
    }

    function View(): Shared
      reads this, limits
    {
      Shared(active, limits.View(), underway)
    }

    /** `check_and_reserve`. */
    method CheckAndReserve(addr: SocketAddr) returns (answer: Admission)
      modifies limits
      ensures answer == Admit(cfg, old(View()), addr)
      ensures View() == AfterReserve(cfg, old(View()), addr)
    {
      if addr in active {
        return AlreadyConnected;
      }
      var ipConnections := limits.IpCount(addr);
      if ipConnections >= cfg.maxPerIp {
        return PerIpLimit;
      }
      var connecting := |limits.connecting|;
      if connecting >= cfg.maxConnecting {
        return PendingLimit;
      }
      var connected := |active|;
      if connected + connecting >= cfg.maxConnections {
        return TotalLimit;
      }
      if addr in limits.connecting {
        return AlreadyConnecting;
      }
      limits.Reserve(addr);
      return Admitted;
    }

    /** `Connections::add`: the entry goes in under the `active` lock, and the guard is dropped,
        completed or not, once that lock is free. The two are separate steps of `Lifecycle`. */
    method Add(addr: SocketAddr, id: ConnId) returns (added: bool)
      modifies this`active, limits
      ensures added <==> !old(underway)
      ensures View() ==
        var sh := AfterAdd(old(View()), addr, id);
        sh.(limits := GuardDropped(sh.limits, addr, added))
    {
      var completed := false;
      if !underway {
        active := active[addr := Entry(id, false)];
        completed := true;
      }
      var _ := limits.DropGuard(addr, completed);
      return completed;
    }

    /** `claim_disconnect`: whether the caller now owns the finalizer of `addr`. */
    method ClaimDisconnect(addr: SocketAddr, want: Option<ConnId>) returns (claimed: bool)
      modifies this`active
      ensures claimed <==> Claimable(old(View()), addr, want)
      ensures View() == AfterClaim(old(View()), addr, want)
    {
      if addr !in active {
        return false;
      }
      var conn := active[addr];
      if want.Some? && conn.id != want.value {
        return false;
      }
      active := active[addr := conn.(claimed := true)];
      if conn.claimed {
        assert active == old(active);
        return false;
      }
      return true;
    }

    /** The locked part of `DisconnectFinalizer`'s drop. */
    method DropFinalizer(addr: SocketAddr) returns (removed: Option<Entry>, doubleRelease: bool)
      modifies this`active, limits
      ensures View() == AfterFinalize(old(View()), addr)
      ensures removed == if addr in old(active) then Some(old(active)[addr]) else None
      ensures doubleRelease <==> DoubleRelease(old(View()).limits, addr)
    {
      removed := if addr in active then Some(active[addr]) else None;
      active := active - {addr};
      doubleRelease := limits.ReleaseIp(addr);
    }
  }

  /** The Writing handler's job for connection `id` is about to publish at `addr`. */
  predicate Publishes(w: S.State, addr: SocketAddr, id: ConnId) {
    S.Enabled(w, S.Publish(id)) && w.jobs[id].addr == addr
  }

  /** If the map was right, it stays so exactly when the publication clobbers nobody. */
  ghost predicate RightExactlyIfFree(w: S.State, id: ConnId)
    requires S.Enabled(w, S.Publish(id))
  {
    S.Inv(w) && S.SendersMatch(w) ==> (S.SendersMatch(S.Apply(w, S.Publish(id))) <==> !S.Clobbers(w, S.Publish(id)))
  }

  lemma PublishedExactly(w: S.State, id: ConnId)
    requires S.Enabled(w, S.Publish(id))
    ensures RightExactlyIfFree(w, id)
  {
    if S.Inv(w) && S.SendersMatch(w) {
      S.ExactStep(w, S.Publish(id));
    }
  }

  lemma PublishedSenders(w: S.State, addr: SocketAddr, id: ConnId)
    requires Publishes(w, addr, id)
    ensures S.Apply(w, S.Publish(id)).senders == w.senders[addr := id]
  {
  }

  /** The sender map behind its lock; each entry is tagged with its connection's id. */
  class WritingSenders {
    var senders: map<SocketAddr, ConnId>

    constructor ()
      ensures senders == map[]
    {
      senders := map[];
    }

    /** The publication in `adopt_writer`: the publishing step of `SenderMap`, which leaves everyone's
        sender right exactly if nobody else occupies the address. */
    method Publish(addr: SocketAddr, id: ConnId)
      modifies this
      ensures forall w: S.State :: w.senders == old(senders) && Publishes(w, addr, id) ==>
        S.Apply(w, S.Publish(id)).senders == senders && RightExactlyIfFree(w, id)
    {
      ghost var before := senders;
      senders := senders[addr := id];
      forall w: S.State | w.senders == before && Publishes(w, addr, id)
        ensures S.Apply(w, S.Publish(id)).senders == before[addr := id] && RightExactlyIfFree(w, id)
      {
        PublishedExactly(w, id);
        PublishedSenders(w, addr, id);
      }
    }

    /** `SenderCleanup`'s drop: a connection removes no sender but its own. */
    method CleanUp(addr: SocketAddr, id: ConnId)
      modifies this
      ensures senders == S.CleanedUp(old(senders), addr, id)
      ensures forall a :: a in old(senders) && old(senders)[a] != id ==> a in senders && senders[a] == old(senders)[a]
    {
      if addr in senders {
        if senders[addr] == id {
          senders := senders - {addr};
        }
      }
    }
  }

  /** The node's long-lived tasks behind their lock, and the shutdown flag beside it. */
  class NodeTasks {
    var tasks: map<T.Kind, T.TaskId>
    var underway: bool

    constructor ()
      ensures tasks == map[] && !underway
    {
      tasks, underway := map[], false;
    }

    /** `register_task`: whether the node adopted the task; if not, it is aborted. */
    method Register(kind: T.Kind, task: T.TaskId) returns (adopted: bool)
      modifies this`tasks
      ensures adopted <==> !underway
      ensures forall st: T.State, u: T.FutureId ::
        st.tasks == old(tasks) && st.underway == underway && T.FutureGuard(u) in st.guards
            && st.guards[T.FutureGuard(u)] == task ==>
          && T.Adopted(st, u, kind).tasks == tasks
          && T.Adopted(st, u, kind).aborted == if adopted then st.aborted else st.aborted + {task}
    {
      if underway {
        return false;
      }
      tasks := tasks[kind := task];
      return true;
    }

    /** The head of `shut_down`: the flag goes up and the tasks move into guards, which is what the
        begin and take steps of `TaskOwnership` do; each task has exactly one owner afterwards. */
    method TakeAll() returns (taken: map<T.Kind, T.TaskId>)
      modifies this
      ensures forall st: T.State, u: T.FutureId :: st.tasks == old(tasks) && u !in st.futures ==>
        var st' := T.Next(T.Next(st, T.Begin), T.Take(u));
        && st'.tasks == tasks && st'.underway == underway
        && st'.guards == st.guards + T.TakenGuards(taken, u)
        && (T.Inv(st) ==> T.Inv(st') && forall t :: T.Owners(st', t) == T.Owners(st, t))
    {
      ghost var before := tasks;
      underway := true;
      taken := tasks;
      tasks := map[];
      forall st: T.State, u: T.FutureId | st.tasks == before && u !in st.futures && T.Inv(st)
        ensures var st' := T.Next(T.Next(st, T.Begin), T.Take(u));
          T.Inv(st') && forall t :: T.Owners(st', t) == T.Owners(st, t)
      {
        TakeKeepsOwners(st, u);
      }
    }
  }

  lemma TakeKeepsOwners(st: T.State, u: T.FutureId)
    requires T.Inv(st) && u !in st.futures
    ensures var st' := T.Next(T.Next(st, T.Begin), T.Take(u));
      T.Inv(st') && forall t :: T.Owners(st', t) == T.Owners(st, t)
  {
    var begun := T.Next(st, T.Begin);
    T.StepInv(st, T.Begin);
    T.StepInv(begun, T.Take(u));
    forall t
      ensures T.Owners(T.Next(begun, T.Take(u)), t) == T.Owners(st, t)
    {
      T.OneOwner(st, t);
      T.OneOwner(T.Next(begun, T.Take(u)), t);
    }
  }
}
