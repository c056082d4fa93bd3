/**
 `wait_for_drain`: waiting for a counter to reach zero without missing the notification.

 The module covers both uses. The active-set drain notifies after every removal; the scheduling
 drain notifies only after the decrement that reached zero. In both, a thread changes the
 counter first and notifies later, as two separate steps, so it may owe a notification while
 others run. A waiter registers before it checks.
 */
module DrainWakeup {

  type WaiterId = nat
  type ThreadId = nat

  /** A waiter between its registration and its check, parked after a check that failed, or
      through. `notified` is set by a notification that came after the registration. */
  datatype Waiter = Registered(notified: bool) | Parked(notified: bool) | Through

  datatype State = State(always: bool, value: nat, waiters: map<WaiterId, Waiter>, owed: set<ThreadId>)

  datatype Label =
    | Up
    | Down(t: ThreadId)
    | Notify(t: ThreadId)
    | Register(w: WaiterId)
    | Check(w: WaiterId)
    | Wake(w: WaiterId)
    | Cancel(w: WaiterId)

  function Init(always: bool, value: nat): State {
    State(always, value, map[], {})
  }

  /** `notify_waiters`: everyone registered at this moment gets it. */
  function NotifyAll(waiters: map<WaiterId, Waiter>): map<WaiterId, Waiter> {
    map w | w in waiters :: if waiters[w].Through? then Through else waiters[w].(notified := true)
  }

  predicate Enabled(st: State, l: Label) {
    match l
    case Up => true
    case Down(t) => st.value > 0 && t !in st.owed
    case Notify(t) => t in st.owed
    case Register(w) => w !in st.waiters
    case Check(w) => w in st.waiters && st.waiters[w].Registered?
    case Wake(w) => w in st.waiters && st.waiters[w].Parked? && st.waiters[w].notified
    case Cancel(w) => w in st.waiters
  }

  function Next(st: State, l: Label): State {
    if !Enabled(st, l) then st
    else match l
      case Up => st.(value := st.value + 1)
      case Down(t) =>
        st.(value := st.value - 1, owed := if st.always || st.value == 1 then st.owed + {t} else st.owed)
      case Notify(t) => st.(waiters := NotifyAll(st.waiters), owed := st.owed - {t})
      case Register(w) => st.(waiters := st.waiters[w := Registered(false)])
      case Check(w) =>
        st.(waiters := st.waiters[w := if st.value == 0 then Through else Parked(st.waiters[w].notified)])
      case Wake(w) => st.(waiters := st.waiters - {w})
      case Cancel(w) => st.(waiters := st.waiters - {w})
  }

  function Exec(st: State, ls: seq<Label>): State
    decreases |ls|
  {
    if ls == [] then st else Next(Exec(st, ls[..|ls| - 1]), ls[|ls| - 1])
  }

  /** Nobody is parked for good: with the counter at zero, a parked waiter has been notified or a
      thread still owes it a notification. */
  ghost predicate NobodyForgotten(st: State) {
    forall w :: w in st.waiters && st.waiters[w].Parked? && st.value == 0 ==> st.waiters[w].notified || st.owed != {}
  }

  lemma StepKeeps(st: State, l: Label)
    requires NobodyForgotten(st)
    ensures NobodyForgotten(Next(st, l))
  {
    if l.Down? && Enabled(st, l) && st.value == 1 {
      assert l.t in Next(st, l).owed;
    }
  }

  /** No interleaving of changes, notifications and waiters loses a wakeup. */
  lemma {:induction false} NoLostWakeup(always: bool, value: nat, ls: seq<Label>)
    ensures NobodyForgotten(Exec(Init(always, value), ls))
    decreases |ls|
  {
    if ls != [] {
      NoLostWakeup(always, value, ls[..|ls| - 1]);
      StepKeeps(Exec(Init(always, value), ls[..|ls| - 1]), ls[|ls| - 1]);
    }
  }

  /** The steps that bring a parked waiter through, given a thread that may owe a notification. */
  function Rescue(st: State, w: WaiterId, t: ThreadId): seq<Label>
    requires w in st.waiters && st.waiters[w].Parked?
  {
    (if st.waiters[w].notified then [] else [Notify(t)]) + [Wake(w), Register(w), Check(w)]
  }

  /** And the wakeup suffices: in every reachable state with the counter at zero, one notification
      that is already owed, if the waiter has none yet, and the waiter's own next three steps
      bring a parked waiter through. */
  lemma {:induction false} ParkedGetsThrough(always: bool, value: nat, ls: seq<Label>, w: WaiterId)
    requires var st := Exec(Init(always, value), ls); w in st.waiters && st.waiters[w].Parked? && st.value == 0
    ensures var st := Exec(Init(always, value), ls);
      exists t :: (st.waiters[w].notified || t in st.owed)
        && w in Exec(st, Rescue(st, w, t)).waiters && Exec(st, Rescue(st, w, t)).waiters[w] == Through
  {
    var st := Exec(Init(always, value), ls);
    NoLostWakeup(always, value, ls);
    var t: nat :| st.waiters[w].notified || t in st.owed;
    var woken := if st.waiters[w].notified then st else Next(st, Notify(t));
    assert woken.waiters[w] == Parked(true) && woken.value == 0;
    RescueRuns(st, w, t, woken);
  }

  lemma RescueRuns(st: State, w: WaiterId, t: ThreadId, woken: State)
    requires w in st.waiters && st.waiters[w].Parked?
    requires woken == if st.waiters[w].notified then st else Next(st, Notify(t))
    requires w in woken.waiters && woken.waiters[w] == Parked(true) && woken.value == 0
    ensures var end := Exec(st, Rescue(st, w, t)); w in end.waiters && end.waiters[w] == Through
  {
    var first := if st.waiters[w].notified then [] else [Notify(t)];
    assert Exec(st, first) == woken by {
      if first != [] {
        assert first[..0] == [];
      }
    }
    var ls := Rescue(st, w, t);
    var n := |first|;
    assert ls[..n] == first;
    assert ls[..n + 1][..n] == ls[..n] && ls[..n + 2][..n + 1] == ls[..n + 1] && ls[..n + 3][..n + 2] == ls[..n + 2];
    assert ls[..n + 3] == ls;
    assert Exec(st, ls[..n + 1]) == Next(woken, Wake(w));
    assert Exec(st, ls[..n + 2]) == Next(Next(woken, Wake(w)), Register(w));
  }

  /** The waiter after the first `m` steps of the run. */
  predicate RegisteredAfter(st: State, ls: seq<Label>, m: nat, w: WaiterId)
    requires m <= |ls|
  {
    var waiters := Exec(st, ls[..m]).waiters;
    w in waiters && waiters[w].Registered?
  }

  predicate ThroughAfter(st: State, ls: seq<Label>, m: nat, w: WaiterId)
    requires m <= |ls|
  {
    var waiters := Exec(st, ls[..m]).waiters;
    w in waiters && waiters[w] == Through
  }

  /** Step `i` registers the waiter, and it stays registered, unchecked, until step `j`. */
  predicate RegisteredFrom(st: State, ls: seq<Label>, i: nat, j: nat, w: WaiterId)
    requires i < j <= |ls|
  {
    ls[i] == Register(w) && forall m :: i < m <= j ==> RegisteredAfter(st, ls, m, w)
  }

  /** Step `j` is the check of that registration, it finds zero, and the waiter is through since. */
  predicate PassedAt(st: State, ls: seq<Label>, i: nat, j: nat, w: WaiterId)
    requires i < j < |ls|
  {
    && RegisteredFrom(st, ls, i, j, w)
    && ls[j] == Check(w) && Exec(st, ls[..j]).value == 0
    && forall m :: j < m <= |ls| ==> ThroughAfter(st, ls, m, w)
  }

  lemma RegisteredExtends(st: State, ls: seq<Label>, n: nat, i: nat, j: nat, w: WaiterId)
    requires n <= |ls| && i < j <= n && RegisteredFrom(st, ls[..n], i, j, w)
    ensures RegisteredFrom(st, ls, i, j, w)
  {
    forall m | i < m <= j
      ensures RegisteredAfter(st, ls, m, w)
    {
      assert ls[..n][..m] == ls[..m];
      assert RegisteredAfter(st, ls[..n], m, w);
    }
  }

  /** A registered waiter has been so since the step that registered it. */
  lemma {:induction false} WasRegistered(always: bool, value: nat, ls: seq<Label>, w: WaiterId)
    requires RegisteredAfter(Init(always, value), ls, |ls|, w)
    ensures exists i :: 0 <= i < |ls| && RegisteredFrom(Init(always, value), ls, i, |ls|, w)
    decreases |ls|
  {
    var st, n := Init(always, value), |ls| - 1;
    assert ls[..|ls|] == ls;
    if ls != [] {
      if RegisteredAfter(st, ls, n, w) {
        assert ls[..n][..n] == ls[..n];
        WasRegistered(always, value, ls[..n], w);
        var i :| 0 <= i < n && RegisteredFrom(st, ls[..n], i, n, w);
        RegisteredExtends(st, ls, n, i, n, w);
        assert RegisteredFrom(st, ls, i, |ls|, w);
      } else {
        assert ls[n] == Register(w);
        assert RegisteredFrom(st, ls, n, |ls|, w);
      }
    }
  }

  lemma PassedExtends(st: State, ls: seq<Label>, n: nat, i: nat, j: nat, w: WaiterId)
    requires n + 1 == |ls| && i < j < n && PassedAt(st, ls[..n], i, j, w) && ThroughAfter(st, ls, |ls|, w)
    ensures PassedAt(st, ls, i, j, w)
  {
    RegisteredExtends(st, ls, n, i, j, w);
    assert ls[..n][..j] == ls[..j];
    forall m | j < m <= |ls|
      ensures ThroughAfter(st, ls, m, w)
    {
      if m <= n {
        assert ls[..n][..m] == ls[..m];
        assert ThroughAfter(st, ls[..n], m, w);
      }
    }
  }

  /** In every run, a waiter that is through registered first, stayed registered until a check that
      found the counter at zero, and got through by that check. */
  lemma {:induction false} ThroughMeansZero(always: bool, value: nat, ls: seq<Label>, w: WaiterId)
    requires ThroughAfter(Init(always, value), ls, |ls|, w)
    ensures exists i, j :: 0 <= i < j < |ls| && PassedAt(Init(always, value), ls, i, j, w)
    decreases |ls|
  {
    var st, n := Init(always, value), |ls| - 1;
    assert ls[..|ls|] == ls;
    if ls != [] {
      assert ls[..n][..n] == ls[..n];
      if ThroughAfter(st, ls, n, w) {
        ThroughMeansZero(always, value, ls[..n], w);
        var i, j :| 0 <= i < j < n && PassedAt(st, ls[..n], i, j, w);
        PassedExtends(st, ls, n, i, j, w);
      } else {
        assert ls[n] == Check(w) && RegisteredAfter(st, ls, n, w);
        WasRegistered(always, value, ls[..n], w);
        var i :| 0 <= i < n && RegisteredFrom(st, ls[..n], i, n, w);
        RegisteredExtends(st, ls, n, i, n, w);
        assert PassedAt(st, ls, i, n, w);
      }
    }
  }
}
