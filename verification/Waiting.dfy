/** How long a ready process can wait when only the clock runs, and when it can wait for ever. */
module Waiting {
  import opened QueuePool
  import opened KernelModel
  import opened Ownership
  import opened Dispatching
  import opened Safety
  import opened Progress
  import opened Timing
  import Lines

  /** Successive states under clock ticks and nothing else. */
  ghost predicate TickTrace(trace: seq<State>) {
    && trace != [] && Inv(trace[0])
    && forall i :: 0 <= i < |trace| - 1 ==> Follows(trace[i], trace[i + 1])
  }

  ghost predicate Follows(s: State, r: State) {
    Shape(s) && Tock(s) == Ok(r)
  }

  lemma TraceTail(trace: seq<State>)
    requires TickTrace(trace) && |trace| > 1
    ensures TickTrace(trace[1..]) && Tock(trace[0]) == Ok(trace[1])
  {
    assert Follows(trace[0], trace[1]);
    TickInv(trace[0]);
    forall i | 0 <= i < |trace[1..]| - 1 ensures Follows(trace[1..][i], trace[1..][i + 1]) {
      assert Follows(trace[i + 1], trace[i + 2]);
    }
  }

  /** For the next `n` ticks nothing more urgent than level `level` is, or becomes, ready. */
  ghost predicate Undisturbed(s: State, level: nat, n: nat)
    requires Shape(s)
  {
    && level <= s.pcbs[s.current].level
    && (forall l :: 0 <= l < level ==> l < MLQ_LEVELS && s.q[l] == [])
    && s.now + n < WORD
    && (forall y :: y in s.q[SLEEPING] && s.pcbs[y].level < level ==> s.pcbs[y].wakeup > s.now + n)
  }

  lemma {:induction false} AtLevelNone(pcbs: seq<Pcb>, xs: seq<Id>, l: nat)
    requires |pcbs| == MAX_PROCS && forall y :: y in xs ==> pcbs[y].level != l
    ensures AtLevel(pcbs, xs, l) == []
  {
    if xs != [] {
      AtLevelNone(pcbs, xs[1..], l);
    }
  }

  /** The wake loop of an undisturbed tick wakes nobody above `level`. */
  lemma WokenQuietly(s: State, w: State, d: nat, level: nat, n: nat)
    requires Shape(s) && Shape(w) && SleepersKeyed(s) && 1 <= n && Undisturbed(s, level, n) && level < MLQ_LEVELS
    requires d <= |s.keys| && Woken(s.(now := NextTime(s)), w, d)
    requires forall j :: 0 <= j < d ==> s.keys[j] <= NextTime(s)
    requires w.pcbs[s.current] == s.pcbs[s.current]
    ensures Undisturbed(w, level, n - 1) && s.q[level] <= w.q[level]
  {
    var due := s.q[SLEEPING][..d];
    forall y | y in due ensures s.pcbs[y].level >= level {
      var j :| 0 <= j < d && due[j] == y;
      assert s.keys[j] <= NextTime(s) && s.q[SLEEPING][j] == y;
    }
    forall l | 0 <= l < level ensures w.q[l] == [] {
      AtLevelNone(s.pcbs, due, l);
    }
    assert forall y :: y in w.q[SLEEPING] ==> y in s.q[SLEEPING];
  }

  lemma WakeQuietly(s: State, level: nat, n: nat)
    requires Inv(s) && 1 <= n && Undisturbed(s, level, n) && level < MLQ_LEVELS
    ensures var w := Wake(s.(now := NextTime(s)));
            Undisturbed(w, level, n - 1) && s.q[level] <= w.q[level] && w.pcbs[s.current] == s.pcbs[s.current]
  {
    var s0 := s.(now := NextTime(s));
    ClockCore(s, {s.current}, NextTime(s));
    WakeCore(s0, {s.current});
    WakeMeans(s0, {s.current});
    WokenQuietly(s, Wake(s0), Due(s0), level, n);
  }

  /** The dispatch at the end of a quantum, with level `level` the most urgent that is occupied. */
  lemma DispatchAtLevel(t: State, level: nat, x: Id, k: nat)
    requires Core(t, {}) && At(t, x, level, k) && t.pcbs[x].status == Ready && Dispatch(t).Ok?
    requires forall l :: 0 <= l < level ==> t.q[l] == []
    ensures var r := Dispatch(t).state;
            && (forall l :: 0 <= l < level ==> r.q[l] == []) && r.pcbs[r.current].level == level
            && r.pcbs[r.current].quantum == QUANTUM_DEFAULT
            && (forall y: Id :: r.pcbs[y].level == t.pcbs[y].level && r.pcbs[y].wakeup == t.pcbs[y].wakeup)
            && (r.current == x ||
                 (r.pcbs[x] == t.pcbs[x] && exists k': nat :: k' < k && At(r, x, level, k')))
  {
    var l, k0 := DispatchMeans(t, {});
    assert l == level && k0 <= k;
    var r := Dispatch(t).state;
    assert t.q[level][k0] in t.q[level];
    if k0 < k && r.current != x {
      ReadyAfterReaped(t, r, l, k0, level, k);
      assert At(r, x, level, k - k0 - 1);
    }
  }

  lemma EntryExtended(s: State, w: State, level: nat, x: Id, k: nat)
    requires Shape(s) && Shape(w) && Lines.Extends(s, w, Tick) && At(s, x, level, k)
    ensures At(w, x, level, k) && w.pcbs[x] == s.pcbs[x]
  {
    assert x in s.q[level];
  }

  lemma WakeKeepsEntry(s: State, level: nat, x: Id, k: nat) returns (w: State)
    requires Inv(s) && s.now + 1 < WORD && At(s, x, level, k)
    ensures w == Wake(s.(now := NextTime(s))) && Inv(w) && Tock(s) == Quantum(w)
    ensures At(w, x, level, k) && w.pcbs[x] == s.pcbs[x]
  {
    w := Wake(s.(now := NextTime(s)));
    Lines.AwakeExtends(s);
    EntryExtended(s, w, level, x, k);
  }

  ghost predicate ReadyAt(s: State, x: Id, level: nat, k: nat)
    requires Shape(s)
  {
    At(s, x, level, k) && s.pcbs[x].status == Ready
  }

  /** The state between the two halves of an undisturbed tick. */
  lemma Halfway(s: State, level: nat, x: Id, k: nat, n: nat) returns (w: State)
    requires Inv(s) && 1 <= n && Undisturbed(s, level, n) && ReadyAt(s, x, level, k)
    ensures Inv(w) && Tock(s) == Quantum(w)
    ensures Undisturbed(w, level, n - 1) && ReadyAt(w, x, level, k)
    ensures w.current == s.current && w.pcbs[s.current] == s.pcbs[s.current]
  {
    w := WakeKeepsEntry(s, level, x, k);
    WakeQuietly(s, level, n);
  }

  /** A tick inside the quantum changes nothing for `x`. */
  lemma TickSpends(s: State, level: nat, x: Id, k: nat, n: nat)
    requires Inv(s) && 1 <= n && Undisturbed(s, level, n) && ReadyAt(s, x, level, k)
    requires s.pcbs[s.current].quantum > 0
    ensures Tock(s).Ok?
    ensures var r := Tock(s).state;
            && Undisturbed(r, level, n - 1) && ReadyAt(r, x, level, k)
            && r.pcbs[r.current].quantum == s.pcbs[s.current].quantum - 1
  {
    var w := Halfway(s, level, x, k, n);
    assert x in w.q[level];
    OnOneQueue(w, {w.current}, level, x);
    SpendKeeps(w, level, n - 1);
  }

  /** The tick that ends the quantum runs `x` or brings it nearer to the head. */
  lemma TickSwitches(s: State, level: nat, x: Id, k: nat, n: nat)
    requires Inv(s) && 1 <= n && Undisturbed(s, level, n) && ReadyAt(s, x, level, k)
    requires s.pcbs[s.current].quantum == 0 && Tock(s).Ok?
    ensures Nearer(Tock(s).state, level, x, k, n - 1)
  {
    hide Placed, StatusAgrees, StacksOwned, SleepersKeyed, ShmsSingle;
    var w := Halfway(s, level, x, k, n);
    SwitchWaits(w, level, x, k, n - 1);
  }

  /** `x` has the CPU, or is ready ahead of position `k` with a fresh quantum running. */
  ghost predicate Nearer(r: State, level: nat, x: Id, k: nat, n: nat)
    requires Shape(r)
  {
    || r.current == x
    || (&& Undisturbed(r, level, n) && r.pcbs[x].status == Ready && r.pcbs[r.current].quantum == QUANTUM_DEFAULT
        && exists k': nat :: k' < k && At(r, x, level, k'))
  }

  lemma SpendKeeps(w: State, level: nat, n: nat)
    requires Inv(w) && Undisturbed(w, level, n) && w.pcbs[w.current].quantum > 0
    ensures Quantum(w).Ok? && Undisturbed(Quantum(w).state, level, n)
  {
    HeldIsOffQueues(w, {w.current}, w.current);
  }

  lemma SwitchWaits(w: State, level: nat, x: Id, k: nat, n: nat)
    requires Inv(w) && Undisturbed(w, level, n) && ReadyAt(w, x, level, k)
    requires Dispatch(Schedule(w, w.current)).Ok?
    ensures Nearer(Dispatch(Schedule(w, w.current)).state, level, x, k, n)
  {
    hide Placed, StatusAgrees, StacksOwned, SleepersKeyed, ShmsSingle;
    var t := Schedule(w, w.current);
    assert x in w.q[level];
    OnOneQueue(w, {w.current}, level, x);
    HeldIsOffQueues(w, {w.current}, w.current);
    CoreSchedule(w, {w.current}, w.current);
    assert {w.current} - {w.current} == {};
    assert At(t, x, level, k);
    DispatchAtLevel(t, level, x, k);
    DispatchSparesSleepers(t, 0);
  }

  ghost function Patience(s: State, k: nat): nat
    requires Shape(s)
  {
    s.pcbs[s.current].quantum + 1 + 3 * k
  }

  /** One tick either runs `x` or leaves it a shorter wait. */
  lemma TickCloser(s: State, level: nat, x: Id, k: nat) returns (k': nat)
    requires Inv(s) && ReadyAt(s, x, level, k) && Undisturbed(s, level, Patience(s, k))
    ensures Tock(s).Ok?
    ensures var r := Tock(s).state;
            || r.current == x
            || (&& ReadyAt(r, x, level, k')
                && Patience(r, k') < Patience(s, k) && Undisturbed(r, level, Patience(r, k')))
  {
    hide Placed, StatusAgrees, StacksOwned, SleepersKeyed, ShmsSingle;
    TickInv(s);
    k' := k;
    if s.pcbs[s.current].quantum > 0 {
      TickSpends(s, level, x, k, Patience(s, k));
    } else {
      TickSwitches(s, level, x, k, Patience(s, k));
      if Tock(s).state.current != x {
        k' :| k' < k && At(Tock(s).state, x, level, k');
      }
    }
  }

  /**
   * Bounded waiting: a ready process at position `k` of an undisturbed level is dispatched within
   * q + 1 + 3k ticks, where q is what is left of the current quantum.
   */
  lemma {:induction false} BoundedWait(trace: seq<State>, level: nat, x: Id, k: nat) returns (n: nat)
    requires TickTrace(trace) && |trace| > Patience(trace[0], k)
    requires ReadyAt(trace[0], x, level, k)
    requires Undisturbed(trace[0], level, Patience(trace[0], k))
    ensures 1 <= n <= trace[0].pcbs[trace[0].current].quantum + 1 + 3 * k
    ensures trace[n].current == x
    decreases |trace|
  {
    var k' := TickCloser(trace[0], level, x, k);
    TraceTail(trace);
    if trace[1].current == x {
      n := 1;
    } else {
      n := BoundedWait(trace[1..], level, x, k');
      n := n + 1;
    }
  }

  /** Priorities are strict: with nobody else at its level or above, and no sleepers, the current one keeps the CPU. */
  lemma {:induction false} NobodyElseRuns(trace: seq<State>)
    requires TickTrace(trace) && Alone(trace[0])
    ensures forall i :: 0 <= i < |trace| ==> trace[i].current == trace[0].current
    decreases |trace|
  {
    if |trace| > 1 {
      KeepsCpu(trace[0]);
      TraceTail(trace);
      NobodyElseRuns(trace[1..]);
      assert forall i :: 1 <= i < |trace| ==> trace[i] == trace[1..][i - 1];
    }
  }

  ghost predicate Alone(s: State)
    requires Shape(s)
  {
    s.q[SLEEPING] == [] && forall l :: 0 <= l <= s.pcbs[s.current].level ==> l < MLQ_LEVELS && s.q[l] == []
  }

  lemma KeepsCpu(s: State)
    requires Inv(s) && Alone(s)
    ensures Tock(s).Ok? && Alone(Tock(s).state) && Tock(s).state.current == s.current
  {
    hide Placed, StatusAgrees, StacksOwned, SleepersKeyed, ShmsSingle;
    TickInv(s);
    var w := s.(now := NextTime(s));
    assert Wake(w) == w;
    if s.pcbs[s.current].quantum == 0 {
      var c, l := s.current, s.pcbs[s.current].level;
      ClockCore(s, {c}, NextTime(s));
      var t := Schedule(w, c);
      CoreSchedule(w, {c}, c);
      assert {c} - {c} == {};
      assert At(t, c, l, 0);
      DispatchAtLevel(t, l, c, 0);
      var m, k := DispatchMeans(t, {});
      assert m == l && k == 0;
    }
  }
}
