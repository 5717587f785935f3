/** When kill() is final: exactly when the victim was waiting on a ready queue. */
module Killing {
  import opened QueuePool
  import opened KernelModel
  import opened Ownership
  import opened Dispatching
  import opened Safety
  import opened Lines
  import opened Progress
  import opened Runs
  import opened Timing
  import opened SleepOrder
  import opened Spawning

  // -------- Pids --------

  /** PCBs outside the free pool have different pids. */
  ghost predicate PidsDistinct(s: State)
    requires Shape(s)
  {
    forall x: Id, y: Id :: x !in s.q[FREE_PCBS] && y !in s.q[FREE_PCBS] && x != y ==> s.pcbs[x].pid != s.pcbs[y].pid
  }

  /** The counter is past all pids in use, or has just come back to 0. */
  ghost predicate Issued(s: State)
    requires Shape(s)
  {
    PidsDistinct(s) && (s.nextPid == 0 || forall x: Id :: x !in s.q[FREE_PCBS] ==> s.pcbs[x].pid < s.nextPid)
  }

  /** No process is created: all PCBs keep their identity, and free ones stay free. */
  ghost predicate PidsKept(s: State, t: State)
    requires Shape(s) && Shape(t)
  {
    && s.q[FREE_PCBS] <= t.q[FREE_PCBS] && t.nextPid == s.nextPid
    && forall x: Id :: SameIdentity(t.pcbs[x], s.pcbs[x])
  }

  /** The first free PCB becomes a process with the next pid. */
  ghost predicate PidsGrow(s: State, t: State)
    requires Shape(s) && Shape(t)
  {
    && s.q[FREE_PCBS] != [] && s.q[FREE_PCBS][1..] <= t.q[FREE_PCBS] && t.nextPid == (s.nextPid + 1) % HALF
    && (forall x: Id :: x != s.q[FREE_PCBS][0] ==> SameIdentity(t.pcbs[x], s.pcbs[x]))
    && t.pcbs[s.q[FREE_PCBS][0]].pid == s.nextPid
  }

  lemma KeptByDispatch(s: State, t: State)
    requires Shape(s) && Shape(t)
    ensures Dispatch(t).Ok? && PidsKept(s, t) ==> PidsKept(s, Dispatch(t).state)
    ensures Dispatch(t).Ok? && PidsGrow(s, t) ==> PidsGrow(s, Dispatch(t).state)
  {
    DispatchSparesSleepers(t, 0);
  }

  lemma KeptByWake(s: State)
    requires Inv(s)
    ensures PidsKept(s, Wake(s.(now := NextTime(s))))
  {
    var s0 := s.(now := NextTime(s));
    ClockCore(s, {s.current}, NextTime(s));
    WakeMeans(s0, {s.current});
  }

  lemma KeptByTick(s: State)
    requires Inv(s) && Tock(s).Ok?
    ensures PidsKept(s, Tock(s).state)
  {
    KeptByWake(s);
    KeptByDispatch(s, Schedule(Wake(s.(now := NextTime(s))), s.current));
  }

  lemma GrownBySpawn(s: State, level: nat)
    requires Inv(s) && s.q[FREE_PCBS] != [] && SpawnCall(s, level).Ok?
    ensures PidsGrow(s, SpawnCall(s, level).state)
  {
    hide Placed, StatusAgrees, StacksOwned, SleepersKeyed, ShmsSingle;
    ChildCore(s, level);
    KeptByDispatch(s, Schedule(Admit(Child(s, level), s.q[FREE_PCBS][0]), s.current));
  }

  lemma PidStep(s: State, e: Event)
    requires Inv(s) && ShmDiscipline(s, e) && Step(s, e).Ok?
    ensures if e.Spawn? && s.q[FREE_PCBS] != [] then PidsGrow(s, Step(s, e).state) else PidsKept(s, Step(s, e).state)
  {
    match e {
      case Tick => KeptByTick(s);
      case Spawn(level) =>
        if s.q[FREE_PCBS] != [] {
          GrownBySpawn(s, level % 256);
        }
      case Sleep(num) => KeptBySleep(s, num % HALF);
      case Exit => KeptByDispatch(s, Cleanup(s, s.current));
      case Kill(pid) => KeptByKill(s, pid % HALF);
      case Read => KeptByRead(s);
      case _ => KeptQuietly(s, e);
    }
  }

  lemma KeptByKill(s: State, pid: nat)
    requires Shape(s) && KillCall(s, pid).Ok?
    ensures PidsKept(s, KillCall(s, pid).state)
  {
    KeptByDispatch(s, Cleanup(SetEax(s, s.current, MINUS_ONE), s.current));
  }

  lemma KeptByRead(s: State)
    requires Shape(s) && ReadCall(s).Ok?
    ensures PidsKept(s, ReadCall(s).state)
  {
    KeptByDispatch(s, Put(SetStatus(s, s.current, Blocked), READING, s.current));
  }

  lemma KeptQuietly(s: State, e: Event)
    requires Shape(s) && Step(s, e).Ok?
    requires !e.Tick? && !e.Spawn? && !e.Sleep? && !e.Exit? && !e.Kill? && !e.Read?
    ensures PidsKept(s, Step(s, e).state)
  {
  }

  lemma KeptBySleep(s: State, num: nat)
    requires Shape(s) && SleepCall(s, num).Ok?
    ensures PidsKept(s, SleepCall(s, num).state)
  {
    if num == 0 {
      KeptByDispatch(s, Schedule(s, s.current));
    } else {
      KeptByDispatch(s, Dozing(s, WakeTime(s, num)));
    }
  }

  /** No process is created from a counter that has come back to 0. */
  ghost predicate PidsLeft(s: State, e: Event)
    requires Shape(s)
  {
    !(e.Spawn? && s.q[FREE_PCBS] != [] && s.nextPid == 0)
  }

  /** Pids in use stay distinct in a step if and only if it does not create a process from a counter back at 0. */
  lemma PidsStayDistinctIff(s: State, e: Event)
    requires Inv(s) && IdleSafe(s) && Lawful(s, e) && Issued(s)
    ensures Step(s, e).Ok?
    ensures PidsDistinct(Step(s, e).state) <==> PidsLeft(s, e)
    ensures PidsLeft(s, e) ==> Issued(Step(s, e).state)
  {
    hide Placed, StatusAgrees, StacksOwned, SleepersKeyed, ShmsSingle, Step;
    LawfulStep(s, e);
    PidStep(s, e);
    if PidsLeft(s, e) {
      GrownOrKept(s, Step(s, e).state);
    } else {
      NewcomerIsHeld(s, e.level);
      IdleIsHeld(Step(s, e).state);
    }
  }

  lemma IdleIsHeld(s: State)
    requires Inv(s) && IdleSafe(s)
    ensures 0 !in s.q[FREE_PCBS]
  {
    hide StacksOwned, SleepersKeyed, ShmsSingle;
    if s.current == 0 {
      HeldIsOffQueues(s, {s.current}, 0);
    }
  }

  /** A new process, and even one that is lost at a bad level, is off the free pool and is not the idle process. */
  lemma NewcomerIsHeld(s: State, level: nat)
    requires Inv(s) && IdleSafe(s) && s.q[FREE_PCBS] != [] && Step(s, Spawn(level)).Ok?
    ensures var x := s.q[FREE_PCBS][0]; x != 0 && x !in Step(s, Spawn(level)).state.q[FREE_PCBS]
  {
    hide Placed, StatusAgrees, StacksOwned, SleepersKeyed, ShmsSingle, SpawnCall;
    var x, l := s.q[FREE_PCBS][0], level % 256;
    IdleIsHeld(s);
    assert x in s.q[FREE_PCBS];
    SpawnInv(s, l);
    if l < MLQ_LEVELS {
      ChildIsActive(s, l);
      RunningIsHeld(SpawnCall(s, l).state, x);
    } else {
      SpawnLeaksIff(s, l);
      LeakedIsHeld(SpawnCall(s, l).state, x);
    }
  }

  lemma LeakedIsHeld(s: State, x: Id)
    requires Inv(s) && x in s.leaked
    ensures x !in s.q[FREE_PCBS]
  {
    hide StatusAgrees, StacksOwned, SleepersKeyed, ShmsSingle;
    assert Occurrences(s, x) + (if x in {s.current} then 1 else 0) == 1;
  }

  /** When the counter is back at 0, the next process created shares pid 0 with the idle process, which never leaves. */
  lemma WrapDuplicatesIdle(s: State, level: nat)
    requires Inv(s) && IdleSafe(s) && s.nextPid == 0 && s.q[FREE_PCBS] != [] && level % 256 < MLQ_LEVELS
    ensures Step(s, Spawn(level)).Ok?
    ensures var t, x := Step(s, Spawn(level)).state, s.q[FREE_PCBS][0];
            && x != 0 && t.pcbs[x].pid == t.pcbs[0].pid == 0
            && t.pcbs[x].status.Active() && t.pcbs[0].status.Active()
  {
    hide Placed, StacksOwned, SleepersKeyed, ShmsSingle, SpawnCall;
    var x := s.q[FREE_PCBS][0];
    LawfulStep(s, Spawn(level));
    PidStep(s, Spawn(level));
    assert x in s.q[FREE_PCBS];
    ChildIsActive(s, level % 256);
  }

  /** A new process at a good level is running or ready after the spawn. */
  lemma ChildIsActive(s: State, level: nat)
    requires Inv(s) && s.q[FREE_PCBS] != [] && level < MLQ_LEVELS
    ensures SpawnCall(s, level).Ok? && SpawnCall(s, level).state.pcbs[s.q[FREE_PCBS][0]].status in {Ready, Running}
  {
    hide Placed, StatusAgrees, StacksOwned, SleepersKeyed, ShmsSingle, SpawnCall, KernelModel.Dispatch;
    LinedCore(s, level);
    SpawnInv(s, level);
    ChildWaits(s, level);
    ReadyAfterDispatch(Lined(s, level), {}, s.q[FREE_PCBS][0], level);
  }

  lemma ChildWaits(s: State, level: nat)
    requires Inv(s) && s.q[FREE_PCBS] != [] && s.q[FREE_STACKS] != [] && level < MLQ_LEVELS
    ensures Waits(Lined(s, level), s.q[FREE_PCBS][0], level, Ready)
  {
    hide Placed, StacksOwned, SleepersKeyed, ShmsSingle;
    ChildCore(s, level);
  }

  /** A PCB in use after the step was in use before with the same pid, or is the newcomer. */
  lemma Survivors(s: State, t: State)
    requires Shape(s) && Shape(t) && (PidsKept(s, t) || PidsGrow(s, t))
    ensures forall x: Id :: x !in t.q[FREE_PCBS] ==>
              || (x !in s.q[FREE_PCBS] && t.pcbs[x].pid == s.pcbs[x].pid)
              || (PidsGrow(s, t) && x == s.q[FREE_PCBS][0] && t.pcbs[x].pid == s.nextPid)
  {
    if PidsKept(s, t) {
      assert forall x: Id :: x in s.q[FREE_PCBS] ==> x in t.q[FREE_PCBS];
    } else {
      assert s.q[FREE_PCBS] == [s.q[FREE_PCBS][0]] + s.q[FREE_PCBS][1..];
      assert forall x: Id :: x in s.q[FREE_PCBS][1..] ==> x in t.q[FREE_PCBS];
    }
  }

  lemma GrownOrKept(s: State, t: State)
    requires Shape(s) && Shape(t) && Issued(s)
    requires PidsKept(s, t) || (PidsGrow(s, t) && s.nextPid != 0)
    ensures Issued(t)
  {
    Survivors(s, t);
  }

  // -------- Final kills --------

  /** Whoever still carries this pid waits, killed, on a ready queue. */
  ghost predicate Dead(s: State, pid: nat)
    requires Shape(s)
  {
    && (s.nextPid == 0 || pid < s.nextPid)
    && forall x: Id :: x !in s.q[FREE_PCBS] && s.pcbs[x].pid == pid ==> exists l :: Waits(s, x, l, Zombie)
  }

  /** Somebody with this pid is running or in line to run. */
  ghost predicate Alive(s: State, pid: nat)
    requires Shape(s)
  {
    exists x: Id :: x !in s.q[FREE_PCBS] && s.pcbs[x].pid == pid && s.pcbs[x].status in {Ready, Running}
  }

  lemma DeadNeverRuns(s: State, pid: nat)
    requires Inv(s) && Dead(s, pid)
    ensures s.pcbs[s.current].pid != pid && !Alive(s, pid)
  {
    HeldIsOffQueues(s, {s.current}, s.current);
  }

  lemma DeadStays(s: State, e: Event, pid: nat)
    requires Inv(s) && ShmDiscipline(s, e) && Step(s, e).Ok? && PidsLeft(s, e) && Dead(s, pid)
    ensures Dead(Step(s, e).state, pid)
  {
    var t := Step(s, e).state;
    PidStep(s, e);
    forall x: Id | x !in s.q[FREE_PCBS] && s.pcbs[x].pid == pid
      ensures x !in t.q[FREE_PCBS] ==> exists l :: Waits(t, x, l, Zombie)
    {
      DeadWaits(s, e, x);
    }
    DeadCarried(s, t, pid);
  }

  lemma DeadCarried(s: State, t: State, pid: nat)
    requires Shape(s) && Shape(t) && (PidsKept(s, t) || (PidsGrow(s, t) && s.nextPid != 0))
    requires s.nextPid == 0 || pid < s.nextPid
    requires forall x: Id :: x !in s.q[FREE_PCBS] && s.pcbs[x].pid == pid && x !in t.q[FREE_PCBS] ==>
               exists l :: Waits(t, x, l, Zombie)
    ensures Dead(t, pid)
  {
    Survivors(s, t);
  }

  lemma DeadWaits(s: State, e: Event, x: Id)
    requires Inv(s) && ShmDiscipline(s, e) && Step(s, e).Ok? && exists l :: Waits(s, x, l, Zombie)
    ensures x !in Step(s, e).state.q[FREE_PCBS] ==> exists l :: Waits(Step(s, e).state, x, l, Zombie)
  {
    var l: nat :| Waits(s, x, l, Zombie);
    ZombieStays(s, e, x, l);
  }

  ghost predicate PidsLeftRun(s: State, es: seq<Event>)
    requires Shape(s)
    decreases |es|
  {
    es == [] || (PidsLeft(s, es[0]) && (Step(s, es[0]).Ok? ==> PidsLeftRun(Step(s, es[0]).state, es[1..])))
  }

  /** A process killed on a ready queue never runs again, whatever happens next. */
  lemma {:induction false} DeadForever(s: State, es: seq<Event>, pid: nat)
    requires Inv(s) && IdleSafe(s) && LawfulRun(s, es) && PidsLeftRun(s, es) && Dead(s, pid)
    ensures Run(s, es).Ok? && Inv(Run(s, es).state) && Dead(Run(s, es).state, pid)
    decreases |es|
  {
    if es != [] {
      LawfulStep(s, es[0]);
      RunUnfold(s, es);
      DeadStays(s, es[0], pid);
      DeadForever(Step(s, es[0]).state, es[1..], pid);
    }
  }

  /** A kill that finds its victim on a ready queue makes that pid dead. */
  lemma KillReady(s: State, pid: nat, x: Id, l: nat)
    requires Inv(s) && Issued(s) && Marks(s, Kill(pid), x) && l < MLQ_LEVELS && x in s.q[l]
    ensures Step(s, Kill(pid)).Ok? && Dead(Step(s, Kill(pid)).state, pid % HALF)
  {
    hide Placed, StatusAgrees, StacksOwned, SleepersKeyed, ShmsSingle;
    StepInv(s, Kill(pid));
    OnOneQueue(s, {s.current}, l, x);
    var t := Step(s, Kill(pid)).state;
    assert Waits(t, x, l, Zombie);
    forall y: Id | y !in t.q[FREE_PCBS] && t.pcbs[y].pid == pid % HALF ensures Waits(t, y, l, Zombie) {
      assert s.pcbs[y].pid == s.pcbs[x].pid;
    }
  }

  // -------- Kills that do not last --------

  lemma TickLawful(s: State)
    requires Inv(s)
    ensures Lawful(s, Tick) && PidsLeft(s, Tick)
  {
  }

  lemma OneMore(s: State, e: Event, es: seq<Event>)
    requires Inv(s) && Lawful(s, e) && PidsLeft(s, e) && Step(s, e).Ok?
    requires LawfulRun(Step(s, e).state, es) && PidsLeftRun(Step(s, e).state, es)
    ensures LawfulRun(s, [e] + es) && PidsLeftRun(s, [e] + es) && Run(s, [e] + es) == Run(Step(s, e).state, es)
  {
    assert ([e] + es)[1..] == es;
    RunUnfold(s, [e] + es);
  }

  /** Left alone, a sleeper comes back to the ready queues when its countdown ends, killed or not. */
  lemma {:induction false} SleeperRevives(s: State, x: Id) returns (es: seq<Event>)
    requires Inv(s) && IdleSafe(s) && x in s.q[SLEEPING]
    ensures LawfulRun(s, es) && PidsLeftRun(s, es) && Run(s, es).Ok? && Alive(Run(s, es).state, s.pcbs[x].pid)
    decreases Remaining(s, s.pcbs[x].wakeup)
  {
    hide Placed, StatusAgrees, StacksOwned, SleepersKeyed, ShmsSingle, Remaining, Alive, IdleSafe, Tock;
    TickLawful(s);
    LawfulStep(s, Tick);
    var t := Step(s, Tick).state;
    if Remaining(s, s.pcbs[x].wakeup) == 1 {
      ReviveNow(s, x);
      es := [Tick] + [];
      OneMore(s, Tick, []);
    } else {
      StaysAsleep(s, Tick, x);
      PidStep(s, Tick);
      es := SleeperRevives(t, x);
      OneMore(s, Tick, es);
      es := [Tick] + es;
    }
  }

  lemma ReviveNow(s: State, x: Id)
    requires Inv(s) && x in s.q[SLEEPING] && Remaining(s, s.pcbs[x].wakeup) == 1
    ensures Tock(s).Ok? && Alive(Tock(s).state, s.pcbs[x].pid)
  {
    hide Placed, StatusAgrees, StacksOwned, SleepersKeyed, ShmsSingle, Remaining, Tock;
    ReadyOnTime(s, x);
    TickInv(s);
    RunningIsHeld(Tock(s).state, x);
  }

  lemma RunningIsHeld(s: State, x: Id)
    requires Inv(s) && s.pcbs[x].status in {Ready, Running}
    ensures x !in s.q[FREE_PCBS]
  {
  }

  /** Whatever character comes in, the first of the blocked readers is ready afterwards, killed or not. */
  lemma ReceiveRevives(s: State, ch: nat)
    requires Inv(s) && IdleSafe(s) && s.q[READING] != []
    ensures Lawful(s, Receive(ch)) && Step(s, Receive(ch)).Ok?
    ensures var t, x := Step(s, Receive(ch)).state, s.q[READING][0];
            && Inv(t) && IdleSafe(t) && t.q[READING] == s.q[READING][1..] && t.pcbs[x].status == Ready
            && forall y: Id :: t.pcbs[y].pid == s.pcbs[y].pid
  {
    hide Placed, StacksOwned, SleepersKeyed, ShmsSingle;
    LawfulStep(s, Receive(ch));
    assert s.q[READING][0] in s.q[READING];
  }

  /** Input wakes the blocked readers in turn, killed or not. */
  lemma {:induction false} ReaderRevives(s: State, x: Id, j: nat) returns (es: seq<Event>)
    requires Inv(s) && IdleSafe(s) && j < |s.q[READING]| && s.q[READING][j] == x
    ensures LawfulRun(s, es) && PidsLeftRun(s, es) && Run(s, es).Ok? && Alive(Run(s, es).state, s.pcbs[x].pid)
    decreases j
  {
    hide Placed, StatusAgrees, StacksOwned, SleepersKeyed, ShmsSingle, Step;
    ReceiveRevives(s, 0);
    var t := Step(s, Receive(0)).state;
    if j == 0 {
      RunningIsHeld(t, x);
      es := [];
    } else {
      es := ReaderRevives(t, x, j - 1);
    }
    OneMore(s, Receive(0), es);
    es := [Receive(0)] + es;
  }

  /** There is a lawful future in which this pid runs or is in line to run. */
  ghost predicate CanRevive(s: State, pid: nat)
    requires Shape(s)
  {
    exists es :: LawfulRun(s, es) && PidsLeftRun(s, es) && Run(s, es).Ok? && Alive(Run(s, es).state, pid)
  }

  lemma FinalOnReady(t: State, pid: nat)
    requires Inv(t) && IdleSafe(t) && Dead(t, pid)
    ensures !CanRevive(t, pid)
  {
    forall es | LawfulRun(t, es) && PidsLeftRun(t, es) ensures Run(t, es).Ok? && !Alive(Run(t, es).state, pid) {
      DeadForever(t, es, pid);
      DeadNeverRuns(Run(t, es).state, pid);
    }
  }

  /** What a kill of another process changes. */
  lemma Marked(s: State, pid: nat, x: Id)
    requires Inv(s) && IdleSafe(s) && Marks(s, Kill(pid), x)
    ensures Step(s, Kill(pid)).Ok?
    ensures var t := Step(s, Kill(pid)).state;
            && Inv(t) && IdleSafe(t) && t.q == s.q && t.keys == s.keys && t.now == s.now
            && t.pcbs[x] == s.pcbs[x].(status := Zombie) && s.pcbs[x].pid == pid % HALF
  {
    hide Placed, StatusAgrees, StacksOwned, SleepersKeyed, ShmsSingle;
    LawfulStep(s, Kill(pid));
  }

  lemma RevivedOffReady(t: State, x: Id)
    requires Inv(t) && IdleSafe(t) && (x in t.q[READING] || x in t.q[SLEEPING])
    ensures CanRevive(t, t.pcbs[x].pid)
  {
    if x in t.q[SLEEPING] {
      var es := SleeperRevives(t, x);
    } else {
      var j :| 0 <= j < |t.q[READING]| && t.q[READING][j] == x;
      var es := ReaderRevives(t, x, j);
    }
  }

  /** A kill of the caller itself returns it to the pools at once, and its pid is dead. */
  lemma KillSelf(s: State, pid: nat)
    requires Inv(s) && IdleSafe(s) && Issued(s) && Leaves(s, Kill(pid))
    ensures Lawful(s, Kill(pid)) && Step(s, Kill(pid)).Ok?
    ensures var t := Step(s, Kill(pid)).state;
            Inv(t) && IdleSafe(t) && s.current in t.q[FREE_PCBS] && Dead(t, pid % HALF)
  {
    hide Placed, StatusAgrees, StacksOwned, SleepersKeyed, ShmsSingle, KillCall;
    LawfulStep(s, Kill(pid));
    PidStep(s, Kill(pid));
    LeaverIsFree(s, pid);
    HeldIsOffQueues(s, {s.current}, s.current);
    var t := Step(s, Kill(pid)).state;
    assert forall y: Id :: y !in t.q[FREE_PCBS] ==> y !in s.q[FREE_PCBS] && y != s.current;
  }

  lemma LeaverIsFree(s: State, pid: nat)
    requires Inv(s) && Leaves(s, Kill(pid)) && Step(s, Kill(pid)).Ok?
    ensures s.current in Step(s, Kill(pid)).state.q[FREE_PCBS]
  {
    hide Placed, StatusAgrees, StacksOwned, SleepersKeyed, ShmsSingle, DispatchFrom;
    var t := Cleanup(SetEax(s, s.current, MINUS_ONE), s.current);
    assert Step(s, Kill(pid)) == Dispatch(t);
    DispatchSparesSleepers(t, 0);
    assert s.current == t.q[FREE_PCBS][|t.q[FREE_PCBS]| - 1];
    assert t.q[FREE_PCBS] <= Dispatch(t).state.q[FREE_PCBS];
  }

  /** The process that kill() finds for this pid: the caller itself, or the one that it marks. */
  ghost predicate Victim(s: State, pid: nat, x: Id)
    requires Shape(s)
  {
    (Leaves(s, Kill(pid)) && x == s.current) || Marks(s, Kill(pid), x)
  }

  /** kill() is final if and only if the victim is the caller itself or was waiting on a ready queue. */
  lemma KillFinalIff(s: State, pid: nat, x: Id)
    requires Inv(s) && IdleSafe(s) && Issued(s) && Victim(s, pid, x)
    ensures Step(s, Kill(pid)).Ok?
    ensures !CanRevive(Step(s, Kill(pid)).state, pid % HALF) <==>
            x == s.current || x in s.q[0] || x in s.q[1] || x in s.q[2]
  {
    hide Placed, StatusAgrees, StacksOwned, SleepersKeyed, ShmsSingle, CanRevive, IdleSafe, Issued, Dead, KillCall;
    if Leaves(s, Kill(pid)) && x == s.current {
      KillSelf(s, pid);
      FinalOnReady(Step(s, Kill(pid)).state, pid % HALF);
    } else {
      Marked(s, pid, x);
      if l :| 0 <= l < MLQ_LEVELS && x in s.q[l] {
        KillReady(s, pid, x, l);
        FinalOnReady(Step(s, Kill(pid)).state, pid % HALF);
      } else {
        MarkedWaitsElsewhere(s, pid, x);
        RevivedOffReady(Step(s, Kill(pid)).state, x);
      }
    }
  }

  lemma MarkedWaitsElsewhere(s: State, pid: nat, x: Id)
    requires Inv(s) && Marks(s, Kill(pid), x) && forall l :: 0 <= l < MLQ_LEVELS ==> x !in s.q[l]
    ensures x != s.current && (x in s.q[READING] || x in s.q[SLEEPING])
  {
    ActiveMeansQueued(s, x);
    assert Occurrences(s, x) + (if x in {s.current} then 1 else 0) == 1;
  }

  /** A sleeper keeps its pid until it is due, whoever else comes and goes. */
  lemma {:induction false} SleeperKeepsPid(s: State, es: seq<Event>, x: Id)
    requires Inv(s) && IdleSafe(s) && LawfulRun(s, es)
    requires x in s.q[SLEEPING] && Ticks(es) < Remaining(s, s.pcbs[x].wakeup)
    ensures Run(s, es).Ok? && Run(s, es).state.pcbs[x].pid == s.pcbs[x].pid
    decreases |es|
  {
    hide StatusAgrees, StacksOwned, SleepersKeyed, ShmsSingle, Remaining, Step;
    if es != [] {
      LawfulStep(s, es[0]);
      RunUnfold(s, es);
      StaysAsleep(s, es[0], x);
      PidStep(s, es[0]);
      OnOneQueue(s, {s.current}, SLEEPING, x);
      SleeperKeepsPid(Step(s, es[0]).state, es[1..], x);
    }
  }

  /** In every lawful run, not only in one: the tick that ends a sleeper's countdown brings it back, killed or not. */
  lemma SleeperAlwaysRevives(s: State, es: seq<Event>, x: Id)
    requires Inv(s) && IdleSafe(s) && LawfulRun(s, es)
    requires x in s.q[SLEEPING] && Ticks(es) + 1 == Remaining(s, s.pcbs[x].wakeup)
    ensures Run(s, es).Ok?
    ensures var r := Run(s, es).state; Tock(r).Ok? && Alive(Tock(r).state, s.pcbs[x].pid)
  {
    hide Placed, StatusAgrees, StacksOwned, SleepersKeyed, ShmsSingle, LawfulRun, Run, Tock, Alive, Remaining;
    SleepsUntilDue(s, es, x);
    SleeperKeepsPid(s, es, x);
    ReviveNow(Run(s, es).state, x);
  }

  // -------- Kills in runs from power-up --------

  lemma CreatedPids(s: State, level: nat)
    requires Creatable(s) && level < MLQ_LEVELS && Issued(s) && s.nextPid + 1 < HALF
    requires s.nextPid == 0 ==> forall x: Id :: x in s.q[FREE_PCBS]
    ensures var r := Create(s, level);
            Issued(r) && r.nextPid == s.nextPid + 1 && r.keys == s.keys && r.now == s.now
  {
    CreateCore(s, level);
    Survivors(s, Create(s, level));
  }

  /** The state from which all runs start: three pids issued, and nobody asleep. */
  lemma BootIsFresh()
    ensures Issued(Boot().state) && Timed(Boot().state) && Boot().state.nextPid == 3
  {
    hide Placed, StatusAgrees, StacksOwned, SleepersKeyed, ShmsSingle, Create, Issued;
    LoadingSteps();
    NobodyYet();
    var s := Pristine();
    CreatedPids(s, LEVEL_LOW);
    var s1 := Create(s, LEVEL_LOW);
    CreatedPids(s1, LEVEL_DEFAULT);
    var s2 := Create(s1, LEVEL_DEFAULT);
    CreatedPids(s2, LEVEL_DEFAULT);
    BootDispatches();
    assert Loaded() == Create(s2, LEVEL_DEFAULT);
    DispatchedPids(Loaded());
  }

  lemma NobodyYet()
    ensures Issued(Pristine()) && forall x: Id :: x in Pristine().q[FREE_PCBS]
  {
    forall x: Id ensures x in Pristine().q[FREE_PCBS] {
      assert ALL_IDS[x] == x;
    }
  }

  lemma DispatchedPids(s: State)
    requires Shape(s) && Issued(s) && s.keys == [] && Dispatch(s).Ok?
    ensures Issued(Dispatch(s).state) && Timed(Dispatch(s).state) && Dispatch(s).state.nextPid == s.nextPid
  {
    DispatchSparesSleepers(s, 0);
    KeptByDispatch(s, s);
    GrownOrKept(s, Dispatch(s).state);
  }

  /** Pids are distinct at the start of the run and after each of its events. */
  ghost predicate DistinctThroughout(s: State, es: seq<Event>)
    requires Shape(s)
    decreases |es|
  {
    PidsDistinct(s) && (es == [] || (Step(s, es[0]).Ok? ==> DistinctThroughout(Step(s, es[0]).state, es[1..])))
  }

  /** Pids in use stay distinct all along a lawful run if and only if no process is created from a counter back at 0. */
  lemma {:induction false} DistinctThroughoutIff(s: State, es: seq<Event>)
    requires Inv(s) && IdleSafe(s) && LawfulRun(s, es) && Issued(s)
    ensures DistinctThroughout(s, es) <==> PidsLeftRun(s, es)
    ensures PidsLeftRun(s, es) ==> Run(s, es).Ok? && Issued(Run(s, es).state)
    decreases |es|
  {
    hide Placed, StatusAgrees, StacksOwned, SleepersKeyed, ShmsSingle, Step, PidsLeft;
    if es != [] {
      LawfulStep(s, es[0]);
      RunUnfold(s, es);
      PidsStayDistinctIff(s, es[0]);
      if PidsLeft(s, es[0]) {
        DistinctThroughoutIff(Step(s, es[0]).state, es[1..]);
      }
    }
  }

  /** The same for runs from power-up: the first 65,536 pids are distinct, and the next creation repeats pid 0. */
  lemma DistinctFromBootIff(es: seq<Event>)
    requires LawfulRun(Boot().state, es)
    ensures DistinctThroughout(Boot().state, es) <==> PidsLeftRun(Boot().state, es)
  {
    hide DistinctThroughout, PidsLeftRun, LawfulRun, Boot, Issued;
    BootIsFresh();
    DistinctThroughoutIff(Boot().state, es);
  }

  /** In every lawful run from power-up in which pids stay distinct, a kill is final under the same condition. */
  lemma KillFinalFromBoot(es: seq<Event>, pid: nat, x: Id)
    requires LawfulRun(Boot().state, es) && PidsLeftRun(Boot().state, es)
    requires var r := Run(Boot().state, es); r.Ok? && Victim(r.state, pid, x)
    ensures var s := Run(Boot().state, es).state;
            && Step(s, Kill(pid)).Ok?
            && (!CanRevive(Step(s, Kill(pid)).state, pid % HALF) <==>
                x == s.current || x in s.q[0] || x in s.q[1] || x in s.q[2])
  {
    hide Issued, CanRevive, Victim, LawfulRun, PidsLeftRun, Run, Boot, DistinctThroughout;
    BootIsFresh();
    RunSafe(Boot().state, es);
    DistinctThroughoutIff(Boot().state, es);
    KillFinalIff(Run(Boot().state, es).state, pid, x);
  }
}
