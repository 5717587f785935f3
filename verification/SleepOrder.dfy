/** Sleepers over whole runs: how long each sleeps, and in which order those that are due together wake. */
module SleepOrder {
  import opened QueuePool
  import opened KernelModel
  import opened Ownership
  import opened Dispatching
  import opened Safety
  import opened Progress
  import opened Runs
  import opened Timing

  // -------- How long a sleep lasts --------

  /** Whatever happens until then, a sleeper is ready or running after the tick that ends its countdown. */
  lemma WakesInEveryRun(s: State, es: seq<Event>, x: Id)
    requires Inv(s) && IdleSafe(s) && LawfulRun(s, es)
    requires x in s.q[SLEEPING] && Ticks(es) + 1 == Remaining(s, s.pcbs[x].wakeup)
    ensures Run(s, es).Ok?
    ensures var r := Run(s, es).state; Tock(r).Ok? && Tock(r).state.pcbs[x].status in {Ready, Running}
  {
    hide Placed, StatusAgrees, StacksOwned, SleepersKeyed, ShmsSingle, LawfulRun, Run, Tock, Remaining;
    SleepsUntilDue(s, es, x);
    ReadyOnTime(Run(s, es).state, x);
  }

  /** Along this run: asleep through fewer than `d` ticks, and ready or running after that many. */
  ghost predicate SleepsFor(s: State, es: seq<Event>, x: Id, d: nat)
    requires Shape(s)
  {
    && Run(s, es).Ok?
    && var r := Run(s, es).state;
    && (Ticks(es) < d ==> x in r.q[SLEEPING])
    && (Ticks(es) + 1 == d ==> Tock(r).Ok? && Tock(r).state.pcbs[x].status in {Ready, Running})
  }

  /** In every lawful run the sleep of `x` has exactly `d` ticks to go. */
  ghost predicate LastsExactly(s: State, x: Id, d: nat)
    requires Shape(s)
  {
    forall es :: LawfulRun(s, es) ==> SleepsFor(s, es, x, d)
  }

  ghost function JustTicks(n: nat): (es: seq<Event>)
    ensures |es| == n && Ticks(es) == n
  {
    if n == 0 then [] else [Tick] + JustTicks(n - 1)
  }

  lemma {:induction false} TicksAreLawful(s: State, n: nat)
    requires Inv(s) && IdleSafe(s)
    ensures LawfulRun(s, JustTicks(n))
    decreases n
  {
    hide Placed, StatusAgrees, StacksOwned, SleepersKeyed, ShmsSingle, Step, IdleSafe;
    if n > 0 {
      assert Lawful(s, Tick);
      LawfulStep(s, Tick);
      TicksAreLawful(Step(s, Tick).state, n - 1);
      var es := JustTicks(n);
      assert es[0] == Tick && es[1..] == JustTicks(n - 1);
    }
  }

  /** One more tick at the end of a run. */
  lemma TickAtEnd(s: State, es: seq<Event>)
    requires Inv(s) && IdleSafe(s) && LawfulRun(s, es) && Run(s, es).Ok? && Inv(Run(s, es).state)
    ensures LawfulRun(s, es + [Tick]) && Ticks(es + [Tick]) == Ticks(es) + 1
    ensures Run(s, es + [Tick]) == Tock(Run(s, es).state)
  {
    hide Placed, StatusAgrees, StacksOwned, SleepersKeyed, ShmsSingle, Step, IdleSafe, LawfulRun, Run;
    var r := Run(s, es).state;
    TickInv(r);
    TickIsTock(r);
    EventAtEnd(s, es, Tick);
    TicksAdd(es);
  }

  lemma {:induction false} TicksAdd(es: seq<Event>)
    ensures Ticks(es + [Tick]) == Ticks(es) + 1
  {
    var all := es + [Tick];
    if es != [] {
      assert all[0] == es[0] && all[1..] == es[1..] + [Tick];
      TicksAdd(es[1..]);
    }
  }

  lemma TickIsTock(s: State)
    requires Shape(s)
    ensures Step(s, Tick) == Tock(s)
  {
  }

  lemma AwakeIsNotAsleep(s: State, x: Id)
    requires Inv(s) && s.pcbs[x].status in {Ready, Running}
    ensures x !in s.q[SLEEPING]
  {
  }

  /** A sleep lasts as many ticks as its countdown says, and no other number, whatever happens meanwhile. */
  lemma LastsRemaining(s: State, x: Id, d: nat)
    requires Inv(s) && IdleSafe(s) && x in s.q[SLEEPING] && d > 0
    ensures LastsExactly(s, x, d) <==> d == Remaining(s, s.pcbs[x].wakeup)
  {
    hide Placed, StatusAgrees, StacksOwned, SleepersKeyed, ShmsSingle, LawfulRun, Run, Tock, Remaining, IdleSafe;
    var n := Remaining(s, s.pcbs[x].wakeup);
    if d == n {
      forall es | LawfulRun(s, es) ensures SleepsFor(s, es, x, d) {
        RunSafe(s, es);
        if Ticks(es) < d {
          SleepsUntilDue(s, es, x);
        }
        if Ticks(es) + 1 == d {
          WakesInEveryRun(s, es, x);
        }
      }
    } else if n < d {
      var es := JustTicks(n - 1);
      TicksAreLawful(s, n - 1);
      SleepsUntilDue(s, es, x);
      WakesInEveryRun(s, es, x);
      TickInv(Run(s, es).state);
      TickAtEnd(s, es);
      AwakeIsNotAsleep(Tock(Run(s, es).state).state, x);
      assert !SleepsFor(s, es + [Tick], x, d);
    } else {
      StillAsleep(s, x, d);
    }
  }

  /** Before the countdown ends, one tick more leaves the sleeper asleep. */
  lemma StillAsleep(s: State, x: Id, d: nat)
    requires Inv(s) && IdleSafe(s) && x in s.q[SLEEPING] && 0 < d < Remaining(s, s.pcbs[x].wakeup)
    ensures !LastsExactly(s, x, d)
  {
    hide Placed, StatusAgrees, StacksOwned, SleepersKeyed, ShmsSingle, LawfulRun, Run, Tock, Remaining, IdleSafe;
    var es := JustTicks(d - 1);
    TicksAreLawful(s, d - 1);
    SleepsUntilDue(s, es, x);
    var r := Run(s, es).state;
    TickInv(r);
    TickAtEnd(s, es);
    SleepsUntilDue(s, es + [Tick], x);
    if Tock(r).state.pcbs[x].status in {Ready, Running} {
      AwakeIsNotAsleep(Tock(r).state, x);
    }
    assert !SleepsFor(s, es, x, d);
  }

  /** The countdown of a new sleeper, and when it is what was asked for. */
  lemma CountdownAsked(s: State, num: nat)
    requires 0 < num && s.now < WORD
    ensures var d, n := num * TICKS_PER_SECOND, Remaining(s, AskedTime(s, num) % WORD);
            && 0 < d && (n == d <==> AskedTime(s, num) < WORD || (s.now == WORD - 1 && d <= WORD))
            && (s.now < WORD - 1 && d < WORD <= AskedTime(s, num) ==> n == 1)
  {
    AheadOfNow(s, num);
    CountdownOf(s, num * TICKS_PER_SECOND);
  }

  lemma CountdownOf(s: State, d: nat)
    requires 0 < d && s.now < WORD
    ensures var n := Remaining(s, (s.now + d) % WORD);
            && (n == d <==> s.now + d < WORD || (s.now == WORD - 1 && d <= WORD))
            && (s.now < WORD - 1 && d < WORD <= s.now + d ==> n == 1)
  {
    if s.now + d < WORD {
      assert (s.now + d) % WORD == s.now + d;
    } else if s.now + d < 2 * WORD {
      assert (s.now + d) % WORD == s.now + d - WORD;
    }
  }

  /**
   * sleep(n) lasts as many ticks as n seconds have if and only if its end is a time that the clock can show, or the
   * clock is at its last value and the ticks do not go around it more than once. A shorter sleep than that whose end
   * is beyond the clock is over at the very next tick.
   */
  lemma SleepLastsIff(s: State, num: nat)
    requires Inv(s) && IdleSafe(s) && 0 < num < HALF && Lawful(s, Sleep(num))
    ensures Step(s, Sleep(num)).Ok?
    ensures var d, r := num * TICKS_PER_SECOND, Step(s, Sleep(num)).state;
            && (LastsExactly(r, s.current, d) <==> AskedTime(s, num) < WORD || (s.now == WORD - 1 && d <= WORD))
            && (s.now < WORD - 1 && d < WORD <= AskedTime(s, num) ==> LastsExactly(r, s.current, 1))
  {
    hide Placed, StatusAgrees, StacksOwned, ShmsSingle, LastsExactly, IdleSafe, SleepCall, Remaining, AskedTime;
    LawfulStep(s, Sleep(num));
    var d, r := num * TICKS_PER_SECOND, Step(s, Sleep(num)).state;
    var k := SleepAsks(s, num);
    assert r.q[SLEEPING][k] == s.current;
    SleepKeepsTime(s, num);
    CountdownAsked(s, num);
    SameCountdown(s, r, AskedTime(s, num) % WORD);
    LastsRemaining(r, s.current, d);
    LastsRemaining(r, s.current, 1);
  }

  lemma SameCountdown(s: State, r: State, wakeup: nat)
    requires s.now == r.now
    ensures Remaining(s, wakeup) == Remaining(r, wakeup)
  {
  }

  lemma SleepKeepsTime(s: State, num: nat)
    requires Inv(s) && 0 < num && SleepCall(s, num).Ok?
    ensures SleepCall(s, num).state.now == s.now
  {
    DispatchSparesSleepers(Dozing(s, WakeTime(s, num)), 0);
  }

  // -------- Nobody overdue, over runs --------

  ghost predicate NoWrapRun(s: State, es: seq<Event>)
    requires Shape(s)
    decreases |es|
  {
    es == [] || (NoWrap(s, es[0]) && (Step(s, es[0]).Ok? ==> NoWrapRun(Step(s, es[0]).state, es[1..])))
  }

  /** No sleeper is overdue at the end of a run in which no wakeup time wraps. */
  lemma {:induction false} TimedRun(s: State, es: seq<Event>)
    requires Inv(s) && IdleSafe(s) && LawfulRun(s, es) && Timed(s) && NoWrapRun(s, es)
    ensures Run(s, es).Ok? && Timed(Run(s, es).state)
    decreases |es|
  {
    hide Placed, StatusAgrees, StacksOwned, SleepersKeyed, ShmsSingle, Timed;
    if es != [] {
      LawfulStep(s, es[0]);
      RunUnfold(s, es);
      TimedStep(s, es[0]);
      TimedRun(Step(s, es[0]).state, es[1..]);
    }
  }

  // -------- Equal wakeup times --------

  /** The sequence holds both, `x` in front of `y`. */
  ghost predicate InOrder(q: seq<Id>, x: Id, y: Id) {
    exists i: nat, j: nat :: i < j < |q| && q[i] == x && q[j] == y
  }

  lemma PlacesInOrder(q: seq<Id>, i: nat, j: nat)
    requires i < j < |q|
    ensures InOrder(q, q[i], q[j])
  {
  }

  /** Both sleep, `x` in front of `y`. */
  ghost predicate SleepsBefore(s: State, x: Id, y: Id)
    requires Shape(s)
  {
    InOrder(s.q[SLEEPING], x, y)
  }

  lemma BothAsleep(s: State, x: Id, y: Id)
    requires Shape(s) && SleepsBefore(s, x, y)
    ensures x in s.q[SLEEPING] && y in s.q[SLEEPING]
  {
  }

  /** A step that does not wake `x` and `y` leaves them asleep in the same order. */
  lemma OrderKept(s: State, e: Event, r: State, x: Id, y: Id)
    requires Shape(s) && Shape(r) && SleepersKeyed(s) && SleepEvolves(s, e, r) && SleepsBefore(s, x, y)
    requires e.Tick? ==> r.now < s.pcbs[x].wakeup && r.now < s.pcbs[y].wakeup
    ensures SleepsBefore(r, x, y)
  {
    hide Sorted;
    if e.Tick? {
      CutKeepsOrder(s, r, x, y);
    } else if e.Sleep? && e.num % HALF != 0 {
      var i: nat, j: nat :| i < j < |s.q[SLEEPING]| && s.q[SLEEPING][i] == x && s.q[SLEEPING][j] == y;
      InsertKeepsOrder(s.q[SLEEPING], Rank(s.keys, WakeTime(s, e.num % HALF)), s.current, i, j);
    }
  }

  lemma CutKeepsOrder(s: State, r: State, x: Id, y: Id)
    requires Shape(s) && Shape(r) && SleepersKeyed(s) && SleepCut(s, r, r.now) && SleepsBefore(s, x, y)
    requires r.now < s.pcbs[x].wakeup && r.now < s.pcbs[y].wakeup
    ensures SleepsBefore(r, x, y)
  {
    hide Sorted;
    var q, n := s.q[SLEEPING], Rank(s.keys, r.now);
    var i: nat, j: nat :| i < j < |q| && q[i] == x && q[j] == y;
    assert s.keys[i] == s.pcbs[x].wakeup;
    PlacesInOrder(q[n..], i - n, j - n);
  }

  lemma InsertKeepsOrder(q: seq<Id>, k: nat, z: Id, i: nat, j: nat)
    requires i < j < |q| && k <= |q|
    ensures InOrder(InsertAt(q, k, z), q[i], q[j])
  {
    PlacesInOrder(InsertAt(q, k, z), if i < k then i else i + 1, if j < k then j else j + 1);
  }

  /** A caller of sleep() goes behind everyone who is due no later. */
  lemma CallerGoesBehind(s: State, num: nat, x: Id)
    requires Inv(s) && 0 < num && SleepCall(s, num).Ok?
    requires x in s.q[SLEEPING] && s.pcbs[x].wakeup <= AskedTime(s, num) % WORD
    ensures var r := SleepCall(s, num).state;
            SleepsBefore(r, x, s.current) && r.pcbs[s.current].wakeup == AskedTime(s, num) % WORD
  {
    hide Placed, StatusAgrees, StacksOwned, ShmsSingle, SleepCall, AskedTime;
    var k := SleepAsks(s, num);
    var i :| 0 <= i < |s.q[SLEEPING]| && s.q[SLEEPING][i] == x;
    assert s.keys[i] == s.pcbs[x].wakeup;
    var q := SleepCall(s, num).state.q[SLEEPING];
    PlacesInOrder(q, i, k);
  }

  /** Over a run that ends before either is due. */
  lemma {:induction false} OrderKeptInRun(s: State, es: seq<Event>, x: Id, y: Id)
    requires Inv(s) && IdleSafe(s) && LawfulRun(s, es) && SleepsBefore(s, x, y)
    requires Ticks(es) < Remaining(s, s.pcbs[x].wakeup) && Ticks(es) < Remaining(s, s.pcbs[y].wakeup)
    ensures Run(s, es).Ok? && SleepsBefore(Run(s, es).state, x, y)
    decreases |es|
  {
    hide Placed, StatusAgrees, StacksOwned, ShmsSingle, Step, SleepsBefore, SleepEvolves, Remaining;
    if es != [] {
      LawfulStep(s, es[0]);
      var t := Step(s, es[0]).state;
      RunUnfold(s, es);
      SleepLine(s, es[0]);
      BothAsleep(s, x, y);
      StaysAsleep(s, es[0], x);
      StaysAsleep(s, es[0], y);
      if es[0].Tick? {
        NotDue(s, t, x);
        NotDue(s, t, y);
      }
      OrderKept(s, es[0], t, x, y);
      OrderKeptInRun(t, es[1..], x, y);
    }
  }

  lemma NotDue(s: State, t: State, x: Id)
    requires Inv(s) && x in s.q[SLEEPING] && Remaining(s, s.pcbs[x].wakeup) > 1 && Shape(t) && SleepEvolves(s, Tick, t)
    ensures t.now < s.pcbs[x].wakeup
  {
    hide Placed, StatusAgrees, StacksOwned, ShmsSingle;
    var j :| 0 <= j < |s.keys| && s.q[SLEEPING][j] == x;
    CountsDown(s, t, s.keys[j]);
  }

  lemma {:induction false} OrderAtLevel(pcbs: seq<Pcb>, xs: seq<Id>, i: nat, j: nat, l: nat)
    requires |pcbs| == MAX_PROCS && i < j < |xs| && pcbs[xs[i]].level == pcbs[xs[j]].level == l
    ensures InOrder(AtLevel(pcbs, xs, l), xs[i], xs[j])
  {
    var tail := xs[1..];
    var rest, q := AtLevel(pcbs, tail, l), AtLevel(pcbs, xs, l);
    if i == 0 {
      assert tail[j - 1] == xs[j] && q == [xs[0]] + rest;
      InAtLevel(pcbs, tail, xs[j], l);
      var b: nat :| b < |rest| && rest[b] == xs[j];
      PlacesInOrder(q, 0, b + 1);
    } else {
      OrderAtLevel(pcbs, tail, i - 1, j - 1, l);
      var a: nat, b: nat :| a < b < |rest| && rest[a] == tail[i - 1] && rest[b] == tail[j - 1];
      var d: nat := |q| - |rest|;
      assert q[d..] == rest;
      PlacesInOrder(q, d + a, d + b);
    }
  }

  /** The wake loop puts two sleepers that are due on their level's line in the order in which they slept. */
  lemma WakesInOrder(s: State, x: Id, y: Id)
    requires Inv(s) && SleepsBefore(s, x, y) && s.pcbs[x].level == s.pcbs[y].level
    requires Remaining(s, s.pcbs[x].wakeup) == Remaining(s, s.pcbs[y].wakeup) == 1
    ensures var w := Wake(s.(now := NextTime(s)));
            Inv(w) && w.current == s.current && Precedes(w, x, y) && w.pcbs[x].status == Ready
  {
    hide Placed, StacksOwned, ShmsSingle;
    var s0 := s.(now := NextTime(s));
    var q, n, l := s.q[SLEEPING], Due(s0), s.pcbs[x].level;
    ClockCore(s, {s.current}, NextTime(s));
    WakeInv(s, NextTime(s));
    WakeMeans(s0, {s.current});
    var i: nat, j: nat :| i < j < |q| && q[i] == x && q[j] == y;
    CountsDown(s, s0, s.keys[j]);
    RankCuts(s.keys, s0.now);
    assert q[..n][i] == x && q[..n][j] == y;
    OrderAtLevel(s.pcbs, q[..n], i, j, l);
    WokenInOrder(s0, Wake(s0), n, l, x, y);
  }

  lemma WokenInOrder(s: State, w: State, n: nat, l: nat, x: Id, y: Id)
    requires Shape(s) && Shape(w) && n <= |s.keys| && Woken(s, w, n) && l < MLQ_LEVELS
    requires x in s.q[SLEEPING][..n]
    requires InOrder(AtLevel(s.pcbs, s.q[SLEEPING][..n], l), x, y)
    ensures Precedes(w, x, y) && w.pcbs[x].status == Ready
  {
    var q, d := AtLevel(s.pcbs, s.q[SLEEPING][..n], l), |s.q[l]|;
    var a: nat, b: nat :| a < b < |q| && q[a] == x && q[b] == y;
    assert At(w, x, l, d + a) && At(w, y, l, d + b);
  }

  /** The second half of a tick keeps that order. */
  lemma OrderAfterQuantum(w: State, x: Id, y: Id)
    requires Inv(w) && Precedes(w, x, y) && w.pcbs[x].status == Ready
    ensures Quantum(w).Ok?
    ensures var t := Quantum(w).state; t.current == x || (t.current != y && Precedes(t, x, y))
  {
    hide Placed, StatusAgrees, StacksOwned, SleepersKeyed, ShmsSingle;
    QuantumInv(w);
    if w.pcbs[w.current].quantum == 0 {
      var t := Schedule(w, w.current);
      CoreSchedule(w, {w.current}, w.current);
      assert {w.current} - {w.current} == {};
      OrderAfterSchedule(w, x, y);
      OrderAfterDispatch(t, {}, x, y);
    } else {
      OrderUnmoved(w, Quantum(w).state, x, y);
    }
  }

  lemma OrderAfterSchedule(w: State, x: Id, y: Id)
    requires Inv(w) && Precedes(w, x, y) && w.pcbs[x].status == Ready
    ensures var t := Schedule(w, w.current); Precedes(t, x, y) && t.pcbs[x].status == Ready
  {
    hide Placed, StatusAgrees, StacksOwned, SleepersKeyed, ShmsSingle;
    var l: nat, i: nat, m: nat, j: nat :| At(w, x, l, i) && At(w, y, m, j) && (l < m || (l == m && i < j));
    assert At(Schedule(w, w.current), x, l, i) && At(Schedule(w, w.current), y, m, j);
  }

  lemma OrderUnmoved(w: State, t: State, x: Id, y: Id)
    requires Inv(w) && Shape(t) && t.q == w.q && t.current == w.current && Precedes(w, x, y)
    ensures t.current != y && Precedes(t, x, y)
  {
    hide StatusAgrees, StacksOwned, SleepersKeyed, ShmsSingle;
    var l: nat, i: nat, m: nat, j: nat :| At(w, x, l, i) && At(w, y, m, j) && (l < m || (l == m && i < j));
    OnOneQueue(w, {w.current}, m, y);
    assert At(t, x, l, i) && At(t, y, m, j);
  }

  /**
   * Two processes of one level that are due at the same time become ready in the order of their sleep calls: when
   * `y` asks for the time that `x` already waits for, then in every lawful run the tick that reaches this time
   * dispatches `x` or leaves it in line ahead of `y`.
   */
  lemma EqualTimesInOrder(s: State, num: nat, r: State, es: seq<Event>, x: Id)
    requires Inv(s) && IdleSafe(s) && 0 < num < HALF && Lawful(s, Sleep(num))
    requires Step(s, Sleep(num)) == Ok(r) && LawfulRun(r, es)
    requires x in s.q[SLEEPING] && s.pcbs[x].wakeup == AskedTime(s, num) % WORD
    requires Ticks(es) + 1 == Remaining(r, s.pcbs[x].wakeup)
    requires Run(r, es).Ok? ==> Run(r, es).state.pcbs[x].level == Run(r, es).state.pcbs[s.current].level
    ensures Run(r, es).Ok?
    ensures var y, t := s.current, Tock(Run(r, es).state);
            t.Ok? && (t.state.current == x || (t.state.current != y && Precedes(t.state, x, y)))
  {
    hide Placed, StatusAgrees, StacksOwned, SleepersKeyed, ShmsSingle, LawfulRun, Run, SleepCall, Remaining;
    hide SleepsBefore, Precedes, Quantum, Wake, IdleSafe;
    var y := s.current;
    LawfulStep(s, Sleep(num));
    CallerGoesBehind(s, num, x);
    StaysAsleep(s, Sleep(num), x);
    BothAsleep(r, x, y);
    OrderKeptInRun(r, es, x, y);
    SleepsUntilDue(r, es, x);
    SleepsUntilDue(r, es, y);
    var e := Run(r, es).state;
    WakesInOrder(e, x, y);
    OrderAfterQuantum(Wake(e.(now := NextTime(e))), x, y);
  }
}
