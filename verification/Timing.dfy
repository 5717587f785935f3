/** Sleeping and waking: every sleeper wakes at the tick it asked for, neither earlier nor later. */
module Timing {
  import opened QueuePool
  import opened KernelModel
  import opened Ownership
  import opened Dispatching
  import opened Safety
  import opened Runs
  import Progress

  /** How many sleepers at the head of the queue are due. */
  ghost function Due(s: State): nat {
    Rank(s.keys, s.now)
  }

  ghost function AtLevel(pcbs: seq<Pcb>, xs: seq<Id>, l: nat): seq<Id>
    requires |pcbs| == MAX_PROCS
  {
    if xs == [] then [] else (if pcbs[xs[0]].level == l then [xs[0]] else []) + AtLevel(pcbs, xs[1..], l)
  }

  /** `r` is `s` with its first `n` sleepers moved to the tails of their own ready levels, in order. */
  ghost predicate Woken(s: State, r: State, n: nat)
    requires Shape(s) && Shape(r) && n <= |s.keys|
  {
    && r.keys == s.keys[n..] && r.q[SLEEPING] == s.q[SLEEPING][n..]
    && (forall l :: 0 <= l < MLQ_LEVELS ==> r.q[l] == s.q[l] + AtLevel(s.pcbs, s.q[SLEEPING][..n], l))
    && (forall i :: SLEEPING < i < QUEUES ==> r.q[i] == s.q[i])
    && (forall x: Id :: r.pcbs[x] ==
          if x in s.q[SLEEPING][..n] then s.pcbs[x].(status := Ready) else s.pcbs[x])
    && r == s.(q := r.q, keys := r.keys, pcbs := r.pcbs)
  }

  /** One turn of the wake loop: the first sleeper `x` goes to the tail of its ready level. */
  ghost predicate Hop(s: State, t: State, x: Id)
    requires Shape(s) && Shape(t)
  {
    && s.keys != [] && s.q[SLEEPING] != [] && x == s.q[SLEEPING][0] && s.pcbs[x].level < MLQ_LEVELS
    && t.keys == s.keys[1..] && t.q[SLEEPING] == s.q[SLEEPING][1..]
    && (forall l :: 0 <= l < MLQ_LEVELS ==> t.q[l] == if l == s.pcbs[x].level then s.q[l] + [x] else s.q[l])
    && (forall i :: SLEEPING < i < QUEUES ==> t.q[i] == s.q[i])
    && t.pcbs == s.pcbs[x := s.pcbs[x].(status := Ready)]
    && t == s.(q := t.q, keys := t.keys, pcbs := t.pcbs)
  }

  lemma WakeHops(s: State, out: set<Id>)
    requires Core(s, out) && s.q[SLEEPING] != []
    ensures Hop(s, Schedule(Take(s, SLEEPING), s.q[SLEEPING][0]), s.q[SLEEPING][0])
  {
    assert s.q[SLEEPING][0] in s.q[SLEEPING];
  }

  lemma HopThenWoken(s: State, t: State, r: State, x: Id, n: nat)
    requires Shape(s) && Shape(t) && Shape(r) && Hop(s, t, x) && n <= |t.keys| && Woken(t, r, n)
    ensures Woken(s, r, n + 1)
  {
    HopThenLines(s, t, r, x, n);
    assert s.keys[n + 1..] == t.keys[n..];
    assert s.q[SLEEPING][n + 1..] == t.q[SLEEPING][n..];
  }

  /** The ready lines after the first hop and the rest of the wake loop. */
  lemma HopThenLines(s: State, t: State, r: State, x: Id, n: nat)
    requires Shape(s) && Shape(t) && Shape(r) && Hop(s, t, x) && n <= |t.keys| && Woken(t, r, n)
    ensures s.q[SLEEPING][..n + 1] == [x] + t.q[SLEEPING][..n]
    ensures forall l :: 0 <= l < MLQ_LEVELS ==> r.q[l] == s.q[l] + AtLevel(s.pcbs, s.q[SLEEPING][..n + 1], l)
  {
    var xs, ys := s.q[SLEEPING][..n + 1], t.q[SLEEPING][..n];
    assert xs == [x] + ys && xs[1..] == ys;
    forall l | 0 <= l < MLQ_LEVELS ensures r.q[l] == s.q[l] + AtLevel(s.pcbs, xs, l) {
      AtLevelSame(s.pcbs, t.pcbs, ys, l);
      var first := if s.pcbs[x].level == l then [x] else [];
      assert t.q[l] == s.q[l] + first && AtLevel(s.pcbs, xs, l) == first + AtLevel(t.pcbs, ys, l);
      assert (s.q[l] + first) + AtLevel(t.pcbs, ys, l) == s.q[l] + (first + AtLevel(t.pcbs, ys, l));
    }
  }

  lemma WokenNone(s: State)
    requires Shape(s)
    ensures Woken(s, s, 0)
  {
    assert s.q[SLEEPING][..0] == [];
  }

  lemma {:induction false} AtLevelSame(pcbs: seq<Pcb>, pcbs': seq<Pcb>, xs: seq<Id>, l: nat)
    requires |pcbs| == |pcbs'| == MAX_PROCS && forall x: Id :: pcbs[x].level == pcbs'[x].level
    ensures AtLevel(pcbs, xs, l) == AtLevel(pcbs', xs, l)
  {
    if xs != [] {
      AtLevelSame(pcbs, pcbs', xs[1..], l);
    }
  }

  lemma WakeTurn(s: State, out: set<Id>)
    requires Core(s, out) && s.current in out && s.keys != [] && s.keys[0] <= s.now
    ensures var t := Schedule(Take(s, SLEEPING), s.q[SLEEPING][0]);
            && Core(t, out) && t.current == s.current && t.q[SLEEPING] == s.q[SLEEPING][1..]
            && Hop(s, t, s.q[SLEEPING][0]) && Wake(s) == Wake(t) && Due(s) == Due(t) + 1
  {
    WakeHops(s, out);
    WakeOneCore(s, out);
    RankTail(s.keys, s.now);
  }

  lemma RankTail(keys: seq<nat>, key: nat)
    requires keys != [] && keys[0] <= key
    ensures Rank(keys, key) == Rank(keys[1..], key) + 1
  {
    var k := Rank(keys, key);
    assert k > 0;
    assert forall j :: 0 <= j < k - 1 ==> keys[1..][j] == keys[j + 1];
    RankUnique(keys[1..], key, k - 1);
  }

  /** The wake loop of _isr_clock, without the loop: exactly the sleepers that are due, in queue order. */
  lemma {:induction false} WakeMeans(s: State, out: set<Id>)
    requires Core(s, out) && s.current in out
    ensures Woken(s, Wake(s), Due(s))
    decreases |s.q[SLEEPING]|
  {
    hide Placed, StatusAgrees, StacksOwned, SleepersKeyed, ShmsSingle, Woken, Hop;
    if s.keys == [] || s.keys[0] > s.now {
      WokenNone(s);
    } else {
      WakeTurn(s, out);
      var t := Schedule(Take(s, SLEEPING), s.q[SLEEPING][0]);
      WakeMeans(t, out);
      HopThenWoken(s, t, Wake(t), s.q[SLEEPING][0], Due(t));
    }
  }

  // -------- What else can change the sleep queue --------

  /** What a process is created with and keeps until its PCB is created anew. */
  predicate SameIdentity(p: Pcb, q: Pcb) {
    p.pid == q.pid && p.ppid == q.ppid && p.level == q.level && p.stack == q.stack
  }

  lemma {:induction false} DispatchSparesSleepers(s: State, level: nat)
    requires Shape(s)
    ensures var r := DispatchFrom(s, level);
            r.Ok? ==>
              && r.state.q[SLEEPING] == s.q[SLEEPING] && r.state.keys == s.keys && r.state.now == s.now
              && r.state.io == s.io && r.state.q[READING] == s.q[READING] && r.state.nextPid == s.nextPid
              && s.q[FREE_PCBS] <= r.state.q[FREE_PCBS]
              && forall x: Id ::
                   && SameIdentity(r.state.pcbs[x], s.pcbs[x])
                   && r.state.pcbs[x].wakeup == s.pcbs[x].wakeup && r.state.pcbs[x].eax == s.pcbs[x].eax
    decreases MLQ_LEVELS - level, if level < MLQ_LEVELS then |s.q[level]| else 0
  {
    if level < MLQ_LEVELS {
      if s.q[level] == [] {
        DispatchSparesSleepers(s, level + 1);
      } else if s.pcbs[s.q[level][0]].status == Zombie {
        DispatchSparesSleepers(Cleanup(Take(s, level), s.q[level][0]), level);
      }
    }
  }

  /** What an event does to the sleep queue and the clock. */
  ghost predicate SleepEvolves(s: State, e: Event, r: State)
    requires Shape(s) && Shape(r)
  {
    if e.Tick? then SleepCut(s, r, NextTime(s))
    else if e.Sleep? && e.num % HALF != 0 then
      SleepInserts(s, r, WakeTime(s, e.num % HALF))
    else SleepSame(s, r)
  }

  ghost predicate SleepCut(s: State, r: State, now: nat)
    requires Shape(s) && Shape(r)
  {
    && r.now == now
    && r.keys == s.keys[Rank(s.keys, now)..] && r.q[SLEEPING] == s.q[SLEEPING][Rank(s.keys, now)..]
  }

  ghost predicate SleepSame(s: State, r: State)
    requires Shape(s) && Shape(r)
  {
    r.now == s.now && r.keys == s.keys && r.q[SLEEPING] == s.q[SLEEPING]
  }

  ghost predicate SleepInserts(s: State, r: State, key: nat)
    requires Shape(s) && Shape(r)
  {
    && r.now == s.now
    && r.keys == InsertAt(s.keys, Rank(s.keys, key), key)
    && r.q[SLEEPING] == InsertAt(s.q[SLEEPING], Rank(s.keys, key), s.current)
  }

  lemma DispatchSleepSame(s: State, t: State)
    requires Shape(s) && Shape(t) && SleepSame(s, t)
    ensures Dispatch(t).Ok? ==> SleepSame(s, Dispatch(t).state)
  {
    DispatchSparesSleepers(t, 0);
  }

  lemma DozeInserts(s: State, key: nat)
    requires Shape(s) && Dispatch(Dozing(s, key)).Ok?
    ensures SleepInserts(s, Dispatch(Dozing(s, key)).state, key)
  {
    DispatchSparesSleepers(Dozing(s, key), 0);
  }

  /** The sleep queue changes only when the current process sleeps and when a tick wakes those that are due. */
  lemma SleepLine(s: State, e: Event)
    requires Inv(s) && ShmDiscipline(s, e) && Step(s, e).Ok?
    ensures SleepEvolves(s, e, Step(s, e).state)
  {
    match e {
      case Tick => TickLine(s);
      case Spawn(level) => SpawnLine(s, level % 256);
      case Sleep(num) =>
        if num % HALF == 0 {
          DispatchSleepSame(s, Schedule(s, s.current));
        } else {
          DozeInserts(s, WakeTime(s, num % HALF));
        }
      case Exit => DispatchSleepSame(s, Cleanup(s, s.current));
      case Kill(pid) => DispatchSleepSame(s, Cleanup(SetEax(s, s.current, MINUS_ONE), s.current));
      case Read => DispatchSleepSame(s, Put(SetStatus(s, s.current, Blocked), READING, s.current));
      case _ =>
    }
  }

  lemma SpawnLine(s: State, level: nat)
    requires Inv(s) && SpawnCall(s, level).Ok?
    ensures SleepSame(s, SpawnCall(s, level).state)
  {
    if s.q[FREE_PCBS] != [] {
      ChildCore(s, level);
      DispatchSleepSame(s, Schedule(Admit(Child(s, level), s.q[FREE_PCBS][0]), s.current));
    }
  }

  lemma TickLine(s: State)
    requires Inv(s) && Tock(s).Ok?
    ensures SleepCut(s, Tock(s).state, NextTime(s))
  {
    var s0 := s.(now := NextTime(s));
    ClockCore(s, {s.current}, NextTime(s));
    WakeMeans(s0, {s.current});
    DispatchSparesSleepers(Schedule(Wake(s0), s.current), 0);
  }

  // -------- The countdown --------

  /** How many ticks, on a clock that wraps, until a sleeper with this wakeup time is taken off the sleep queue. */
  function Remaining(s: State, wakeup: nat): (n: nat)
    ensures n > 0
  {
    if s.now == WORD - 1 then wakeup + 1 else if wakeup > s.now then wakeup - s.now else 1
  }

  /** A tick counts down by one, and the last one is due. */
  lemma CountsDown(s: State, r: State, wakeup: nat)
    requires s.now < WORD && wakeup < WORD && r.now == NextTime(s)
    ensures Remaining(s, wakeup) == 1 <==> wakeup <= r.now
    ensures Remaining(s, wakeup) > 1 ==> Remaining(r, wakeup) == Remaining(s, wakeup) - 1
  {
  }

  lemma RankCuts(keys: seq<nat>, now: nat)
    requires Sorted(keys)
    ensures forall j :: Rank(keys, now) <= j < |keys| ==> keys[j] > now
    ensures forall j :: 0 <= j < Rank(keys, now) ==> keys[j] <= now
  {
  }

  /** Where a sleeper is, and whether the next tick takes it. */
  lemma SleepsAt(s: State, x: Id) returns (j: nat)
    requires Inv(s) && x in s.q[SLEEPING]
    ensures j < |s.keys| && s.q[SLEEPING][j] == x && s.keys[j] == s.pcbs[x].wakeup < WORD
    ensures multiset(s.q[SLEEPING])[x] == 1
    ensures j < Rank(s.keys, NextTime(s)) <==> Remaining(s, s.pcbs[x].wakeup) == 1
  {
    hide StatusAgrees, StacksOwned, ShmsSingle;
    OnOneQueue(s, {s.current}, SLEEPING, x);
    j :| 0 <= j < |s.keys| && s.q[SLEEPING][j] == x;
    RankCuts(s.keys, NextTime(s));
    CountsDown(s, s.(now := NextTime(s)), s.keys[j]);
  }

  lemma CutAt(xs: seq<Id>, j: nat, n: nat)
    requires j < |xs| && n <= |xs| && multiset(xs)[xs[j]] == 1
    ensures xs[j] in xs[n..] <==> j >= n
  {
    assert xs == xs[..n] + xs[n..];
    if j < n {
      assert xs[..n][j] == xs[j];
      assert multiset(xs)[xs[j]] == multiset(xs[..n])[xs[j]] + multiset(xs[n..])[xs[j]];
    } else {
      assert xs[n..][j - n] == xs[j];
    }
  }

  /** A tick takes a sleeper off the sleep queue if and only if its countdown is at its end. */
  lemma TickTakesIff(s: State, r: State, x: Id)
    requires Inv(s) && x in s.q[SLEEPING] && Tock(s) == Ok(r)
    ensures x in r.q[SLEEPING] <==> Remaining(s, s.pcbs[x].wakeup) != 1
  {
    hide Placed, StatusAgrees, StacksOwned, SleepersKeyed, ShmsSingle, Tock;
    TickLine(s);
    var j := SleepsAt(s, x);
    CutAt(s.q[SLEEPING], j, Rank(s.keys, NextTime(s)));
  }

  /** A sleeper whose countdown ends, killed or not, is ready or running after the tick. */
  lemma ReadyOnTime(s: State, x: Id)
    requires Inv(s) && x in s.q[SLEEPING] && Remaining(s, s.pcbs[x].wakeup) == 1
    ensures Tock(s).Ok?
    ensures var pcb := Tock(s).state.pcbs[x]; pcb.status in {Ready, Running} && pcb.pid == s.pcbs[x].pid
  {
    hide Placed, StatusAgrees, StacksOwned, SleepersKeyed, ShmsSingle, Tock;
    var j := SleepsAt(s, x);
    WakenedIsReady(s, x, j);
  }

  /** Whoever is due when the clock ticks, killed or not, is ready or running afterwards. */
  lemma WakenedIsReady(s: State, x: Id, j: nat)
    requires Inv(s) && j < |s.keys| && s.q[SLEEPING][j] == x && j < Rank(s.keys, NextTime(s))
    ensures Tock(s).Ok?
    ensures var pcb := Tock(s).state.pcbs[x]; pcb.status in {Ready, Running} && pcb.pid == s.pcbs[x].pid
  {
    var s0 := s.(now := NextTime(s));
    ClockCore(s, {s.current}, NextTime(s));
    WakeMeans(s0, {s.current});
    WakeInv(s, NextTime(s));
    var w, n := Wake(s0), Due(s0);
    assert s.q[SLEEPING][..n][j] == x && x in s.q[SLEEPING];
    var l := s.pcbs[x].level;
    InAtLevel(s.pcbs, s.q[SLEEPING][..n], x, l);
    assert w.pcbs[x].status == Ready && x in w.q[l];
    TickKeepsReady(s, w, x, l);
  }

  lemma TickKeepsReady(s: State, w: State, x: Id, l: nat)
    requires Inv(s) && w == Wake(s.(now := NextTime(s))) && Inv(w) && l < MLQ_LEVELS
    requires x in w.q[l] && w.pcbs[x].status == Ready && w.pcbs[x].pid == s.pcbs[x].pid
    ensures Tock(s).Ok?
    ensures var pcb := Tock(s).state.pcbs[x]; pcb.status in {Ready, Running} && pcb.pid == s.pcbs[x].pid
  {
    TickInv(s);
    OnOneQueue(w, {w.current}, l, x);
    if w.pcbs[w.current].quantum == 0 {
      var t := Schedule(w, w.current);
      CoreSchedule(w, {w.current}, w.current);
      assert {w.current} - {w.current} == {};
      assert Progress.Waits(t, x, l, Ready);
      Progress.ReadyAfterDispatch(t, {}, x, l);
      DispatchCore(t, {}, 0);
      DispatchSparesSleepers(t, 0);
    }
  }

  lemma {:induction false} InAtLevel(pcbs: seq<Pcb>, xs: seq<Id>, x: Id, l: nat)
    requires |pcbs| == MAX_PROCS && x in xs && pcbs[x].level == l
    ensures x in AtLevel(pcbs, xs, l)
  {
    if xs[0] != x {
      InAtLevel(pcbs, xs[1..], x, l);
    }
  }

  // -------- No sleeper overdue --------

  /** No sleeper is overdue. */
  ghost predicate Timed(s: State) {
    forall j :: 0 <= j < |s.keys| ==> s.now < s.keys[j]
  }

  /** The wakeup time that this event asks for does not wrap around. */
  ghost predicate NoWrap(s: State, e: Event) {
    e.Sleep? ==> AskedTime(s, e.num % HALF) < WORD
  }

  lemma TimedStep(s: State, e: Event)
    requires Inv(s) && ShmDiscipline(s, e) && Step(s, e).Ok? && Timed(s) && NoWrap(s, e)
    ensures Timed(Step(s, e).state)
    ensures Step(s, e).state.now == if e.Tick? then NextTime(s) else s.now
  {
    hide Placed, StatusAgrees, StacksOwned, ShmsSingle, Step;
    SleepLine(s, e);
    TimedEvolves(s, e, Step(s, e).state);
  }

  lemma TimedEvolves(s: State, e: Event, r: State)
    requires Shape(s) && Shape(r) && SleepersKeyed(s) && Timed(s) && NoWrap(s, e) && SleepEvolves(s, e, r)
    ensures Timed(r) && r.now == if e.Tick? then NextTime(s) else s.now
  {
    if e.Tick? {
      RankCuts(s.keys, r.now);
    } else if e.Sleep? && e.num % HALF != 0 {
      AheadOfNow(s, e.num % HALF);
      InsertAbove(s.keys, WakeTime(s, e.num % HALF), s.now);
    }
  }

  lemma AheadOfNow(s: State, num: nat)
    requires 0 < num
    ensures s.now < AskedTime(s, num) && WakeTime(s, num) == AskedTime(s, num) % WORD
  {
    assert num * TICKS_PER_SECOND >= 1;
  }

  lemma InsertAbove(keys: seq<nat>, key: nat, now: nat)
    requires now < key && forall j :: 0 <= j < |keys| ==> now < keys[j]
    ensures forall j :: 0 <= j <= |keys| ==> now < InsertAt(keys, Rank(keys, key), key)[j]
  {
    var k := Rank(keys, key);
    forall j | 0 <= j <= |keys| ensures now < InsertAt(keys, k, key)[j] {
      assert j < k ==> InsertAt(keys, k, key)[j] == keys[j];
      assert j > k ==> InsertAt(keys, k, key)[j] == keys[j - 1];
    }
  }

  /** With nobody overdue, a tick wakes exactly the sleepers whose wakeup time is the new time. */
  lemma WakesExactlyOnTime(s: State, r: State, x: Id)
    requires Inv(s) && Timed(s) && x in s.q[SLEEPING] && Tock(s) == Ok(r)
    ensures x in r.q[SLEEPING] <==> s.pcbs[x].wakeup != s.now + 1
  {
    hide Placed, StatusAgrees, StacksOwned, SleepersKeyed, ShmsSingle, Tock;
    var j := SleepsAt(s, x);
    TickTakesIff(s, r, x);
  }

  // -------- Over runs --------

  function Ticks(es: seq<Event>): nat {
    if es == [] then 0 else (if es[0].Tick? then 1 else 0) + Ticks(es[1..])
  }

  lemma StaysAsleep(s: State, e: Event, x: Id)
    requires Inv(s) && ShmDiscipline(s, e) && Step(s, e).Ok?
    requires x in s.q[SLEEPING] && (e.Tick? ==> Remaining(s, s.pcbs[x].wakeup) > 1)
    ensures var r, w := Step(s, e).state, s.pcbs[x].wakeup;
            && x in r.q[SLEEPING] && r.pcbs[x].wakeup == w
            && Remaining(r, w) == Remaining(s, w) - if e.Tick? then 1 else 0
  {
    hide Placed, StatusAgrees, StacksOwned, ShmsSingle, Step;
    StepInv(s, e);
    SleepLine(s, e);
    KeyStays(s, e, Step(s, e).state, x);
  }

  lemma KeyStays(s: State, e: Event, r: State, x: Id)
    requires Shape(s) && Shape(r) && SleepersKeyed(s) && SleepersKeyed(r) && SleepEvolves(s, e, r)
    requires x in s.q[SLEEPING] && (e.Tick? ==> Remaining(s, s.pcbs[x].wakeup) > 1)
    ensures x in r.q[SLEEPING] && r.pcbs[x].wakeup == s.pcbs[x].wakeup
    ensures Remaining(r, r.pcbs[x].wakeup) == Remaining(s, s.pcbs[x].wakeup) - if e.Tick? then 1 else 0
  {
    var j :| 0 <= j < |s.keys| && s.q[SLEEPING][j] == x;
    if e.Tick? {
      CountsDown(s, r, s.keys[j]);
      RankCuts(s.keys, r.now);
      assert r.q[SLEEPING][j - Rank(s.keys, r.now)] == x;
    } else if e.Sleep? && e.num % HALF != 0 {
      KeyStaysInserted(s, r, WakeTime(s, e.num % HALF), j);
    } else {
      assert r.q[SLEEPING][j] == x;
    }
  }

  lemma KeyStaysInserted(s: State, r: State, key: nat, j: nat)
    requires Shape(s) && Shape(r) && SleepersKeyed(s) && SleepersKeyed(r) && SleepInserts(s, r, key) && j < |s.keys|
    ensures s.q[SLEEPING][j] in r.q[SLEEPING] && r.pcbs[s.q[SLEEPING][j]].wakeup == s.keys[j]
  {
    var i := if j < Rank(s.keys, key) then j else j + 1;
    assert r.q[SLEEPING][i] == s.q[SLEEPING][j] && r.keys[i] == s.keys[j];
  }

  /** The caller is sleeper `k`, with this key: behind every sleeper due no later, ahead of all others. */
  ghost predicate GoesIn(s: State, r: State, key: nat, k: nat)
    requires Shape(s) && Shape(r)
  {
    && k <= |s.q[SLEEPING]| && r.q[SLEEPING] == InsertAt(s.q[SLEEPING], k, s.current)
    && r.pcbs[s.current].wakeup == key
    && forall j :: 0 <= j < |s.keys| ==> (s.keys[j] <= key <==> j < k)
  }

  /** Whatever happens, a sleeper stays asleep, with its wakeup time, as long as its countdown has ticks left. */
  lemma {:induction false} SleepsUntilDue(s: State, es: seq<Event>, x: Id)
    requires Inv(s) && IdleSafe(s) && LawfulRun(s, es)
    requires x in s.q[SLEEPING] && Ticks(es) < Remaining(s, s.pcbs[x].wakeup)
    ensures Run(s, es).Ok?
    ensures var r, w := Run(s, es).state, s.pcbs[x].wakeup;
            && Inv(r) && IdleSafe(r) && x in r.q[SLEEPING] && r.pcbs[x].wakeup == w
            && Remaining(r, w) == Remaining(s, w) - Ticks(es)
    decreases |es|
  {
    hide Placed, StatusAgrees, StacksOwned, SleepersKeyed, ShmsSingle, Step, Remaining;
    if es != [] {
      LawfulStep(s, es[0]);
      RunUnfold(s, es);
      StaysAsleep(s, es[0], x);
      SleepsUntilDue(Step(s, es[0]).state, es[1..], x);
    }
  }

  /** The time `num` seconds ahead, on a clock without an end. */
  function AskedTime(s: State, num: nat): nat {
    s.now + num * TICKS_PER_SECOND
  }

  /** sleep(num) asks for the time num seconds ahead in 32 bits, behind every sleeper due no later than that. */
  lemma SleepAsks(s: State, num: nat) returns (k: nat)
    requires Inv(s) && 0 < num && SleepCall(s, num).Ok?
    ensures GoesIn(s, SleepCall(s, num).state, AskedTime(s, num) % WORD, k)
  {
    hide Placed, StatusAgrees, StacksOwned, ShmsSingle, WakeTime;
    SleepInv(s, num);
    DozeInserts(s, WakeTime(s, num));
    AheadOfNow(s, num);
    k := InsertedOnce(s, SleepCall(s, num).state, WakeTime(s, num));
  }

  lemma InsertedOnce(s: State, r: State, key: nat) returns (k: nat)
    requires Shape(s) && Shape(r) && Sorted(s.keys) && SleepersKeyed(r) && SleepInserts(s, r, key)
    ensures GoesIn(s, r, key, k)
  {
    k := Rank(s.keys, key);
    RankCuts(s.keys, key);
    assert r.q[SLEEPING][k] == s.current && r.keys[k] == key;
  }
}
