/** Runs from power-up that reach the states in which the kernel departs from what its comments intend. */
module Reachable {
  import opened QueuePool
  import opened SerialModel
  import opened KernelModel
  import opened Ownership
  import opened Dispatching
  import opened Safety
  import opened Lines
  import opened Progress
  import opened Runs
  import opened Timing
  import opened Spawning
  import opened Killing
  import opened Streams

  /** The state that _init leaves, as far as the runs below need it. */
  lemma BootShows()
    ensures var s := Boot().state;
            && s.current == 1 && s.pcbs[1].level == LEVEL_DEFAULT && s.q[0] == [] && s.q[1] == [2]
            && s.pcbs[2].status == Ready && s.io == EMPTY_SIO && s.q[READING] == [] && s.now == 0
  {
    hide Placed, StacksOwned, SleepersKeyed, ShmsSingle, Create, Loaded, Pristine;
    LoadedShows();
    var l := Loaded();
    DispatchSparesSleepers(l, 0);
    assert DispatchFrom(l, 0) == DispatchFrom(l, 1) == Ok(GiveCpu(Take(l, 1), 1));
    assert 2 in l.q[1] && 1 in l.q[1];
  }

  lemma LoadedShows()
    ensures var s := Loaded(); s.pcbs[2].status == Ready && s.now == 0
  {
    hide Placed, StatusAgrees, StacksOwned, SleepersKeyed, ShmsSingle, Create, Ids, Schedule, NewProc;
    PristineCore();
    assert ALL_IDS[0] == 0 && ALL_IDS[1..][0] == 1 && ALL_IDS[1..][1..][0] == 2;
    CreateCore(Pristine(), LEVEL_LOW);
    CreatedNow(Pristine(), LEVEL_LOW);
    var s1 := Create(Pristine(), LEVEL_LOW);
    CreateCore(s1, LEVEL_DEFAULT);
    CreatedNow(s1, LEVEL_DEFAULT);
    var s2 := Create(s1, LEVEL_DEFAULT);
    CreateCore(s2, LEVEL_DEFAULT);
    CreatedNow(s2, LEVEL_DEFAULT);
  }

  lemma CreatedNow(s: State, level: nat)
    requires Shape(s) && s.q[FREE_PCBS] != [] && s.q[FREE_STACKS] != []
    ensures Create(s, level).now == s.now
  {
  }

  // -------- The serial overrun --------

  /** 1024 characters, each but the first read at once, and one more: the linear buffer overruns. */
  lemma OverrunFromBoot()
    ensures Run(Boot().state, [Receive(LF)] + Dribble(BUF_SIZE - 1)) == Overrun
  {
    hide Boot, Run;
    BootShows();
    var s, es := Boot().state, [Receive(LF)] + Dribble(BUF_SIZE - 1);
    assert es[0] == Receive(LF) && es[1..] == Dribble(BUF_SIZE - 1);
    var t := Step(s, Receive(LF)).state;
    assert OneWaits(t, 1);
    DribbleOverruns(t, BUF_SIZE - 1);
    RunUnfold(s, es);
  }

  // -------- A killed sleeper --------

  /** The first user process sleeps, and the next one kills it: a zombie on the sleep queue, which will come back. */
  lemma KilledSleeperFromBoot()
    ensures var s := Boot().state; var es := [Sleep(1), Kill(s.pcbs[1].pid)];
            && LawfulRun(s, es) && Run(s, es).Ok?
            && var t := Run(s, es).state;
            && 1 in t.q[SLEEPING] && t.pcbs[1].status == Zombie && CanRevive(t, t.pcbs[1].pid)
  {
    hide Boot, CanRevive, Placed, StatusAgrees, StacksOwned, SleepersKeyed, ShmsSingle, SleepCall, KillCall;
    BootShows();
    BootIsFresh();
    var s := Boot().state;
    var pid := s.pcbs[1].pid;
    HeldIsOffQueues(s, {s.current}, 1);
    CallerSleeps(s);
    var r := Step(s, Sleep(1)).state;
    SleeperIsMarked(r, 1);
    Marked(r, pid, 1);
    var es := [Sleep(1), Kill(pid)];
    assert es[0] == Sleep(1) && es[1..] == [Kill(pid)] && [Kill(pid)][1..] == [];
    RunUnfold(s, es);
    RunUnfold(r, [Kill(pid)]);
    RevivedOffReady(Step(r, Kill(pid)).state, 1);
  }

  /** The first sleep: lawful, and with the pids as they were. */
  lemma CallerSleeps(s: State)
    requires Inv(s) && IdleSafe(s) && Issued(s) && s.current == 1
    ensures Lawful(s, Sleep(1)) && Step(s, Sleep(1)).Ok?
    ensures var r := Step(s, Sleep(1)).state;
            && Inv(r) && IdleSafe(r) && Issued(r) && 1 in r.q[SLEEPING] && r.pcbs[1].pid == s.pcbs[1].pid
  {
    hide Placed, StatusAgrees, StacksOwned, SleepersKeyed, ShmsSingle, SleepCall, IdleSafe, Issued;
    assert Lawful(s, Sleep(1)) by { NotIdle(s); }
    LawfulStep(s, Sleep(1));
    PidStep(s, Sleep(1));
    PidsStayDistinctIff(s, Sleep(1));
    var k := SleepAsks(s, 1);
    assert Step(s, Sleep(1)).state.q[SLEEPING][k] == 1;
  }

  lemma NotIdle(s: State)
    requires Shape(s) && s.current == 1
    ensures Lawful(s, Sleep(1))
  {
  }

  /** With distinct pids a kill of a sleeper's pid marks the sleeper. */
  lemma SleeperIsMarked(s: State, x: Id)
    requires Inv(s) && IdleSafe(s) && Issued(s) && x in s.q[SLEEPING] && x != 0
    ensures s.pcbs[x].pid < HALF ==> Marks(s, Kill(s.pcbs[x].pid), x)
  {
    hide StacksOwned, SleepersKeyed, ShmsSingle;
    var pid := s.pcbs[x].pid;
    OnOneQueue(s, {s.current}, SLEEPING, x);
    HeldIsOffQueues(s, {s.current}, s.current);
    IdleIsHeld(s);
    ActiveMeansQueued(s, x);
    var y := Find(s.pcbs, pid, 0);
    if y < MAX_PROCS {
      ActiveMeansQueued(s, y);
    }
  }

  // -------- The wrap of the pids --------

  /** One process alone on the two upper levels, with a free PCB. */
  ghost predicate Alone(s: State) {
    && Inv(s) && IdleSafe(s) && s.pcbs[s.current].level == LEVEL_DEFAULT
    && s.q[0] == [] && s.q[1] == [] && s.q[FREE_PCBS] != []
  }

  /** A dispatch with one queue of ready processes in front. */
  lemma FirstInLine(s: State)
    requires Shape(s) && s.q[0] == [] && s.q[1] != [] && s.pcbs[s.q[1][0]].status == Ready
    ensures Dispatch(s) == Ok(GiveCpu(Take(s, 1), s.q[1][0]))
  {
    assert DispatchFrom(s, 0) == DispatchFrom(s, 1);
  }

  /** A child is created and runs, with its parent next in line. */
  lemma ChildRuns(s: State)
    requires Alone(s) && s.current != 0
    ensures Step(s, Spawn(LEVEL_DEFAULT)).Ok?
    ensures var t := Step(s, Spawn(LEVEL_DEFAULT)).state;
            && Inv(t) && IdleSafe(t) && t.current != 0 && t.q[0] == [] && t.q[1] == [s.current]
            && t.pcbs[s.current].status == Ready && t.pcbs[s.current].level == LEVEL_DEFAULT
            && t.nextPid == (s.nextPid + 1) % HALF
  {
    hide Placed, StatusAgrees, StacksOwned, SleepersKeyed, ShmsSingle, Lined, KernelModel.Dispatch;
    LawfulStep(s, Spawn(LEVEL_DEFAULT));
    PidStep(s, Spawn(LEVEL_DEFAULT));
    LinedCore(s, LEVEL_DEFAULT);
    ParentBehindChild(s);
    IdleIsHeld(s);
    assert s.q[FREE_PCBS][0] in s.q[FREE_PCBS];
    FirstInLine(Lined(s, LEVEL_DEFAULT));
  }

  lemma ParentBehindChild(s: State)
    requires Alone(s) && s.q[FREE_STACKS] != []
    ensures var x, l := s.q[FREE_PCBS][0], Lined(s, LEVEL_DEFAULT);
            && Shape(l) && x != s.current && l.q[1] == [x, s.current] && l.q[0] == []
            && l.pcbs[x].status == l.pcbs[s.current].status == Ready && l.pcbs[s.current].level == LEVEL_DEFAULT
  {
    hide Placed, StacksOwned, SleepersKeyed, ShmsSingle;
    ChildCore(s, LEVEL_DEFAULT);
  }

  /** It exits, and the parent goes on. */
  lemma ChildExits(t: State, c: Id)
    requires Inv(t) && IdleSafe(t) && t.current != 0 && t.q[0] == [] && t.q[1] == [c] && c != 0
    requires t.pcbs[c].status == Ready && t.pcbs[c].level == LEVEL_DEFAULT
    ensures Step(t, Exit).Ok?
    ensures var r := Step(t, Exit).state; Alone(r) && r.current == c && r.nextPid == t.nextPid
  {
    hide Placed, StacksOwned, SleepersKeyed, ShmsSingle;
    LawfulStep(t, Exit);
    PidStep(t, Exit);
    var u := Cleanup(t, t.current);
    assert c in t.q[1];
    OnOneQueue(t, {t.current}, 1, c);
    FirstInLine(u);
  }

  /** Creating and ending processes one after the other takes the counter to 0. */
  lemma {:induction false} CounterComesBack(s: State, n: nat) returns (es: seq<Event>)
    requires Alone(s) && s.current != 0 && s.nextPid != 0 && n > 0 && s.nextPid + n == HALF
    ensures LawfulRun(s, es) && PidsLeftRun(s, es) && Run(s, es).Ok?
    ensures var r := Run(s, es).state; Alone(r) && r.current != 0 && r.nextPid == 0
    decreases n
  {
    hide Alone, Step, IdleSafe, Placed, StatusAgrees, StacksOwned, SleepersKeyed, ShmsSingle;
    var c := s.current;
    var t, r := SpawnAndExit(s);
    if n == 1 {
      es := [];
    } else {
      es := CounterComesBack(r, n - 1);
    }
    OneMore(t, Exit, es);
    es := [Exit] + es;
    OneMore(s, Spawn(LEVEL_DEFAULT), es);
    es := [Spawn(LEVEL_DEFAULT)] + es;
  }

  lemma SpawnAndExit(s: State) returns (t: State, r: State)
    requires Alone(s) && s.current != 0 && s.nextPid != 0
    ensures Inv(s) && Lawful(s, Spawn(LEVEL_DEFAULT)) && PidsLeft(s, Spawn(LEVEL_DEFAULT))
    ensures Step(s, Spawn(LEVEL_DEFAULT)) == Ok(t) && Inv(t) && Lawful(t, Exit) && PidsLeft(t, Exit)
    ensures Step(t, Exit) == Ok(r) && Alone(r) && r.current != 0 && r.nextPid == (s.nextPid + 1) % HALF
  {
    hide Step, Placed, StatusAgrees, StacksOwned, SleepersKeyed, ShmsSingle;
    ChildRuns(s);
    t := Step(s, Spawn(LEVEL_DEFAULT)).state;
    ChildExits(t, s.current);
    r := Step(t, Exit).state;
  }

  /** A lawful run from power-up after which two processes have pid 0. */
  lemma DuplicatesFromBoot() returns (es: seq<Event>)
    ensures LawfulRun(Boot().state, es) && Run(Boot().state, es).Ok? && !PidsDistinct(Run(Boot().state, es).state)
  {
    hide Boot, Alone, Step, Run, LawfulRun, PidsLeftRun, IdleSafe, PidsDistinct, Issued;
    hide Placed, StatusAgrees, StacksOwned, SleepersKeyed, ShmsSingle;
    var s := Boot().state;
    var r := FirstLeaves();
    es := CounterComesBack(r, HALF - 3);
    AloneIsSafe(r);
    var e := Run(r, es).state;
    AloneIsSafe(e);
    NextRepeats(e);
    EventAtEnd(r, es, Spawn(LEVEL_DEFAULT));
    es := es + [Spawn(LEVEL_DEFAULT)];
    EventInFront(s, Exit, es);
    es := [Exit] + es;
  }

  lemma AloneIsSafe(s: State)
    requires Alone(s)
    ensures Inv(s) && IdleSafe(s) && s.q[FREE_PCBS] != []
  {
  }

  /** The first user process ends, and the other one is alone. */
  lemma FirstLeaves() returns (r: State)
    ensures Lawful(Boot().state, Exit) && Step(Boot().state, Exit) == Ok(r)
    ensures Alone(r) && r.current != 0 && r.nextPid == 3
  {
    hide Placed, StacksOwned, SleepersKeyed, ShmsSingle, Step, IdleSafe;
    BootShows();
    BootIsFresh();
    var s := Boot().state;
    assert 2 in s.q[1];
    ChildExits(s, 2);
    r := Step(s, Exit).state;
  }

  lemma NextRepeats(s: State)
    requires Inv(s) && IdleSafe(s) && s.q[FREE_PCBS] != [] && s.nextPid == 0
    ensures Lawful(s, Spawn(LEVEL_DEFAULT)) && Step(s, Spawn(LEVEL_DEFAULT)).Ok?
    ensures !PidsDistinct(Step(s, Spawn(LEVEL_DEFAULT)).state)
  {
    hide Placed, StatusAgrees, StacksOwned, SleepersKeyed, ShmsSingle, Step;
    LawfulStep(s, Spawn(LEVEL_DEFAULT));
    WrapDuplicatesIdle(s, LEVEL_DEFAULT);
    NewcomerIsHeld(s, LEVEL_DEFAULT);
    IdleIsHeld(Step(s, Spawn(LEVEL_DEFAULT)).state);
  }
}
