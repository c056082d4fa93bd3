/**
 `Connections::add` reads the shutdown flag and inserts inside one write lock of the active set,
 but the flag is not behind that lock: a shutdown may begin between the two. `Lifecycle` takes
 `add` as one step. Here it is two, with the lock held in between, and every such run is shown
 to be a `Lifecycle` run in which `add` happens when it reads the flag.
 */
module AddRefinement {
  import opened Util
  import L = Lifecycle

  type SetupId = L.SetupId

  /** `adding` is the setup that has read the flag as down and holds the lock to insert. */
  datatype State = State(core: L.State, adding: Option<SetupId>)

  datatype Label =
    | Other(l: L.Label)
    | CheckFlag(s: SetupId)
    | Insert

  /** The steps that take the lock of the active set, for reading or writing. */
  predicate NeedsActive(l: L.Label) {
    l.Reserve? || l.Claim? || l.FinalizerDrop? || l.Snapshot? || l.Attempt?
  }

  /** The step belongs to setup `s`, which is inside `add`. */
  predicate IsOf(l: L.Label, s: SetupId) {
    (l.NewConnection? || l.DropGuard? || l.ReleasePermit?) && l.s == s
  }

  predicate CanInsert(core: L.State, s: SetupId) {
    s in core.setups && core.setups[s].phase.Building?
  }

  predicate Enabled(r: State, l: Label) {
    match l
    case Other(c) =>
      L.Enabled(r.core, c) && !c.Add? && (r.adding.Some? ==> !NeedsActive(c) && !IsOf(c, r.adding.value))
    case CheckFlag(s) => r.adding.None? && CanInsert(r.core, s)
    case Insert => r.adding.Some? && CanInsert(r.core, r.adding.value)
  }

  /** The insertion, whatever the flag is by now. */
  function Inserted(core: L.State, s: SetupId): L.State
    requires CanInsert(core, s)
  {
    var addr, id := core.setups[s].addr, core.setups[s].phase.id;
    core.(sh := core.sh.(active := core.sh.active[addr := L.Entry(id, false)]),
          setups := core.setups[s := L.Setup(addr, L.Added(id))],
          entered := core.entered + {id})
  }

  function Apply(r: State, l: Label): State
    requires Enabled(r, l)
  {
    match l
    case Other(c) => r.(core := L.Apply(r.core, c))
    case CheckFlag(s) =>
      if r.core.sh.underway then r.(core := L.AddStep(r.core, s)) else r.(adding := Some(s))
    case Insert => State(Inserted(r.core, r.adding.value), None)
  }

  function Next(r: State, l: Label): State {
    if Enabled(r, l) then Apply(r, l) else r
  }

  function Exec(r: State, ls: seq<Label>): State
    decreases |ls|
  {
    if ls == [] then r else Next(Exec(r, ls[..|ls| - 1]), ls[|ls| - 1])
  }

  function Init(cfg: L.Config): State { State(L.Init(cfg), None) }

  // ---- the simulation ---------------------------------------------------------------------

  /** What the lifecycle sees: an insertion under way has happened. */
  function Abs(r: State): L.State {
    if r.adding.Some? && CanInsert(r.core, r.adding.value) then Inserted(r.core, r.adding.value) else r.core
  }

  /** The lifecycle steps that one step stands for. */
  function Meaning(r: State, l: Label): seq<L.Label> {
    if !Enabled(r, l) then []
    else match l
      case Other(c) => [c]
      case CheckFlag(s) => [L.Add(s)]
      case Insert => []
  }

  function Linearized(r: State, ls: seq<Label>): seq<L.Label>
    decreases |ls|
  {
    if ls == [] then [] else
      var init := ls[..|ls| - 1];
      Linearized(r, init) + Meaning(Exec(r, init), ls[|ls| - 1])
  }

  /** Whoever is inside `add` is still a setup about to insert. */
  predicate AddingInv(r: State) {
    r.adding.Some? ==> CanInsert(r.core, r.adding.value)
  }

  lemma InsertionIsAdd(core: L.State, s: SetupId)
    requires CanInsert(core, s) && !core.sh.underway
    ensures L.AddStep(core, s) == Inserted(core, s)
  {
  }

  lemma UpdatesCommute(setups: map<SetupId, L.Setup>, s: SetupId, a: L.Setup, t: SetupId, b: L.Setup)
    requires s != t
    ensures setups[s := a][t := b] == setups[t := b][s := a]
    ensures setups[s := a] - {t} == (setups - {t})[s := a]
  {
  }

  lemma SameSize(setups: map<SetupId, L.Setup>, s: SetupId, a: L.Setup)
    requires s in setups
    ensures |setups[s := a]| == |setups|
  {
    assert setups[s := a].Keys == setups.Keys;
  }

  lemma GuardDropCommutes(core: L.State, s: SetupId, t: SetupId)
    requires CanInsert(core, s) && L.Enabled(core, L.DropGuard(t)) && s != t
    ensures CanInsert(L.DropGuardStep(core, t), s) && L.Enabled(Inserted(core, s), L.DropGuard(t))
    ensures Inserted(L.DropGuardStep(core, t), s) == L.DropGuardStep(Inserted(core, s), t)
  {
    UpdatesCommute(core.setups, s, Inserted(core, s).setups[s], t, L.DropGuardStep(core, t).setups[t]);
  }

  /** Steps that need neither the lock nor the setup commute with the insertion. */
  lemma OthersCommute(core: L.State, s: SetupId, c: L.Label)
    requires CanInsert(core, s) && L.Enabled(core, c) && !c.Add? && !NeedsActive(c) && !IsOf(c, s)
    ensures CanInsert(L.Apply(core, c), s)
    ensures L.Enabled(Inserted(core, s), c)
    ensures Inserted(L.Apply(core, c), s) == L.Apply(Inserted(core, s), c)
  {
    var inserted := Inserted(core, s).setups[s];
    match c
    case DropGuard(t) => GuardDropCommutes(core, s, t);
    case ReleasePermit(t) => UpdatesCommute(core.setups, s, inserted, t, inserted);
    case NewConnection(t, id) => UpdatesCommute(core.setups, s, inserted, t, L.Apply(core, c).setups[t]);
    case AcquirePermit(t, addr) =>
      SameSize(core.setups, s, inserted);
      UpdatesCommute(core.setups, s, inserted, t, L.Apply(core, c).setups[t]);
    case _ =>
  }

  /** A task that holds the lock with the flag read as down: the lifecycle's `add` is behind it. */
  lemma WhileAdding(r: State, c: L.Label)
    requires AddingInv(r) && r.adding.Some? && Enabled(r, Other(c))
    ensures AddingInv(Apply(r, Other(c))) && Abs(Apply(r, Other(c))) == L.Next(Abs(r), c)
  {
    OthersCommute(r.core, r.adding.value, c);
  }

  lemma CheckingIsAdding(r: State, s: SetupId)
    requires Enabled(r, CheckFlag(s))
    ensures AddingInv(Apply(r, CheckFlag(s))) && Abs(Apply(r, CheckFlag(s))) == L.Next(Abs(r), L.Add(s))
  {
    if !r.core.sh.underway {
      InsertionIsAdd(r.core, s);
    }
  }

  lemma StepSimulates(r: State, l: Label)
    requires AddingInv(r)
    ensures AddingInv(Next(r, l))
    ensures Abs(Next(r, l)) == if Meaning(r, l) == [] then Abs(r) else L.Next(Abs(r), Meaning(r, l)[0])
  {
    if Enabled(r, l) {
      match l
      case Other(c) =>
        if r.adding.Some? {
          WhileAdding(r, c);
        }
      case CheckFlag(s) => CheckingIsAdding(r, s);
      case Insert =>
    }
  }

  lemma OneMore(st: L.State, ls: seq<L.Label>, more: seq<L.Label>)
    requires |more| <= 1
    ensures L.Exec(st, ls + more) == if more == [] then L.Exec(st, ls) else L.Next(L.Exec(st, ls), more[0])
  {
    if more == [] {
      assert ls + more == ls;
    } else {
      assert (ls + more)[..|ls|] == ls;
    }
  }

  /** Every run with the race in it is a lifecycle run. */
  lemma {:induction false} RunSimulates(cfg: L.Config, ls: seq<Label>)
    ensures var r := Exec(Init(cfg), ls);
      AddingInv(r) && Abs(r) == L.Exec(L.Init(cfg), Linearized(Init(cfg), ls))
    decreases |ls|
  {
    if ls != [] {
      var init := ls[..|ls| - 1];
      var r := Exec(Init(cfg), init);
      RunSimulates(cfg, init);
      StepSimulates(r, ls[|ls| - 1]);
      OneMore(L.Init(cfg), Linearized(Init(cfg), init), Meaning(r, ls[|ls| - 1]));
    }
  }

  /** So whenever nobody is inside `add`, the state is one that `Lifecycle` reaches, and all that
      is proved of those holds of it. */
  lemma {:induction false} StatesAreLifecycleStates(cfg: L.Config, ls: seq<Label>)
    requires Exec(Init(cfg), ls).adding.None?
    ensures Exec(Init(cfg), ls).core == L.Exec(L.Init(cfg), Linearized(Init(cfg), ls))
    ensures L.Inv(Exec(Init(cfg), ls).core)
  {
    RunSimulates(cfg, ls);
    L.RunInv(cfg, Linearized(Init(cfg), ls));
  }

  // ---- what the race allows, and what it does not ------------------------------------------

  /** In any state, a setup about to insert and a shutdown about to begin can pass each other:
      the connection enters after the flag is up. */
  lemma EntersAfterTheFlag(core: L.State, s: SetupId)
    requires CanInsert(core, s) && !core.sh.underway
    ensures var r := Next(Next(Next(State(core, None), CheckFlag(s)), Other(L.Begin)), Insert);
      && r.core.sh.underway
      && r.core.sh.active == core.sh.active[core.setups[s].addr := L.Entry(core.setups[s].phase.id, false)]
  {
  }

  /** While somebody is inside `add`, no shutdown has its snapshot. */
  ghost predicate SnapshotsWait(r: State) {
    r.adding.Some? ==> r.core.callers == map[]
  }

  lemma SnapshotsWaitStep(r: State, l: Label)
    requires SnapshotsWait(r) && AddingInv(r) && (r.adding.None? ==> L.Shutdown(r.core))
    ensures SnapshotsWait(Next(r, l))
  {
    if l.CheckFlag? && Enabled(r, l) && !r.core.sh.underway {
      assert r.core.callers == map[];
    }
  }

  lemma {:induction false} SnapshotsAlwaysWait(cfg: L.Config, ls: seq<Label>)
    ensures SnapshotsWait(Exec(Init(cfg), ls))
    decreases |ls|
  {
    if ls != [] {
      var init := ls[..|ls| - 1];
      SnapshotsAlwaysWait(cfg, init);
      RunSimulates(cfg, init);
      if Exec(Init(cfg), init).adding.None? {
        StatesAreLifecycleStates(cfg, init);
      }
      SnapshotsWaitStep(Exec(Init(cfg), init), ls[|ls| - 1]);
    }
  }

  lemma ClosedStep(r: State, l: Label)
    requires r.adding.None? && r.core.sh.underway
    ensures var r' := Next(r, l);
      r'.adding.None? && r'.core == if Meaning(r, l) == [] then r.core else L.Next(r.core, Meaning(r, l)[0])
  {
  }

  lemma {:induction false} ShrinksFrom(r: State, more: seq<Label>)
    requires r.adding.None? && r.core.sh.underway
    ensures var end := Exec(r, more);
      end.adding.None? && end.core.sh.underway && L.ShrunkFrom(r.core.sh.active, end.core.sh.active)
    decreases |more|
  {
    if more != [] {
      var init, l := more[..|more| - 1], more[|more| - 1];
      var mid := Exec(r, init);
      ShrinksFrom(r, init);
      ClosedStep(mid, l);
      if Meaning(mid, l) != [] {
        L.ShrinkStep(mid.core, Meaning(mid, l)[0]);
      }
    }
  }

  /** From a shutdown's snapshot on, race or not, the active set only shrinks. */
  lemma {:induction false} NothingEntersAfterTheSnapshot(cfg: L.Config, ls: seq<Label>, more: seq<Label>, k: L.CallerId)
    requires k in Exec(Init(cfg), ls).core.callers
    ensures var r := Exec(Init(cfg), ls); L.ShrunkFrom(r.core.sh.active, Exec(r, more).core.sh.active)
  {
    var r := Exec(Init(cfg), ls);
    SnapshotsAlwaysWait(cfg, ls);
    assert r.adding.None?;
    StatesAreLifecycleStates(cfg, ls);
    ShrinksFrom(r, more);
  }
}
