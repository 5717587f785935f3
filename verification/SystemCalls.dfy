/** What each system call does for the process that traps with its code, told by the state and not by the handler. */
module SystemCalls {
  import opened QueuePool
  import opened SerialModel
  import opened KernelModel
  import opened Ownership
  import opened Dispatching
  import opened Safety
  import opened Lines
  import opened Progress
  import opened Runs
  import opened Timing
  import opened Spawning
  import opened Killing
  import opened Streams
  import opened Startup

  /** The step of a trap by the current process, with its code and two arguments. */
  ghost function Trapped(s: State, code: nat, first: nat, second: nat): (r: Outcome)
    requires Shape(s) && !ShmCode(code)
    ensures r.Ok? ==> Shape(r.state)
  {
    Step(s, Requested(code, first, second))
  }

  /** The call has no effect but an answer in the caller's EAX. */
  ghost predicate OnlyAnswers(s: State, r: State, eax: nat)
    requires Shape(s) && Shape(r)
  {
    && r == s.(pcbs := r.pcbs) && r.pcbs[s.current] == s.pcbs[s.current].(eax := eax)
    && forall x: Id :: x != s.current ==> r.pcbs[x] == s.pcbs[x]
  }

  // -------- Codes 7 to 10: questions --------

  /** time, getpid, getppid and getpidlist: the answers, and nothing else. */
  lemma TrapAsks(s: State, code: nat, first: nat, second: nat)
    requires Inv(s) && 7 <= code <= 10
    ensures Trapped(s, code, first, second).Ok?
    ensures var r := Trapped(s, code, first, second).state; var eax := r.pcbs[s.current].eax;
            && OnlyAnswers(s, r, eax)
            && eax == if code == 7 then s.now / TICKS_PER_SECOND
                      else if code == 8 then s.pcbs[s.current].pid
                      else if code == 9 then s.pcbs[s.current].ppid
                      else 24 - |s.q[FREE_PCBS]| - |s.leaked|
  {
    hide Placed, StatusAgrees, StacksOwned, SleepersKeyed, ShmsSingle, ActivePids;
    CensusAgrees(s);
  }

  // -------- Codes 0 and 1: spawn --------

  /** The child that spawn leaves when there is a free PCB. */
  ghost predicate IsChildOf(s: State, r: State, x: Id, level: nat)
    requires Shape(s) && Shape(r)
  {
    && r.pcbs[x].pid == s.nextPid && r.pcbs[x].ppid == s.pcbs[s.current].pid && r.pcbs[x].level == level
    && x !in r.q[FREE_PCBS] && x != s.current
    && (level < 3 ==> r.pcbs[x].status in {Ready, Running})
  }

  /** spawn at level 1, or at the level given as a byte: the child, its parent's answer, or -1 and nothing else. */
  lemma TrapSpawns(s: State, code: nat, first: nat, second: nat)
    requires Inv(s) && IdleSafe(s) && code < 2
    ensures Trapped(s, code, first, second).Ok?
    ensures var r := Trapped(s, code, first, second).state;
            if s.q[FREE_PCBS] == [] then OnlyAnswers(s, r, 0xFFFF_FFFF)
            else
              && IsChildOf(s, r, s.q[FREE_PCBS][0], if code == 0 then 1 else second % 256)
              && r.pcbs[s.current].eax == s.nextPid && r.pcbs[s.current].status in {Ready, Running}
              && r.nextPid == (s.nextPid + 1) % 0x1_0000
  {
    hide Placed, StatusAgrees, StacksOwned, SleepersKeyed, ShmsSingle, SpawnCall, IdleSafe;
    var level := if code == 0 then 1 else second % 256;
    assert Trapped(s, code, first, second) == SpawnCall(s, level) == Step(s, Spawn(level));
    SpawnInv(s, level);
    if s.q[FREE_PCBS] == [] {
      SpawnRefused(s, level);
    } else {
      ParentGetsPid(s, level);
      SpawnerStays(s, level);
      RunningOrReady(SpawnCall(s, level).state, s.current);
      NewcomerIsHeld(s, level);
      ChildIdentity(s, level);
      PidStep(s, Spawn(level));
      if level < MLQ_LEVELS {
        ChildIsActive(s, level);
      }
    }
  }

  lemma SpawnRefused(s: State, level: nat)
    requires Shape(s) && s.q[FREE_PCBS] == []
    ensures SpawnCall(s, level).Ok? && OnlyAnswers(s, SpawnCall(s, level).state, 0xFFFF_FFFF)
  {
  }

  lemma RunningOrReady(s: State, c: Id)
    requires Inv(s) && (s.current == c || exists l :: Waits(s, c, l, Ready))
    ensures s.pcbs[c].status in {Ready, Running}
  {
    hide Placed, StatusAgrees, StacksOwned, SleepersKeyed, ShmsSingle;
  }

  /** What the child is created with. */
  lemma ChildIdentity(s: State, level: nat)
    requires Inv(s) && s.q[FREE_PCBS] != []
    ensures SpawnCall(s, level).Ok?
    ensures var r, x := SpawnCall(s, level).state, s.q[FREE_PCBS][0];
            && x != s.current && r.pcbs[x].pid == s.nextPid && r.pcbs[x].ppid == s.pcbs[s.current].pid
            && r.pcbs[x].level == level
  {
    hide Placed, StatusAgrees, StacksOwned, SleepersKeyed, ShmsSingle, SpawnCall, KernelModel.Dispatch, Lined;
    LinedCore(s, level);
    LinedIdentity(s, level);
    DispatchSparesSleepers(Lined(s, level), 0);
    DispatchStarts(Lined(s, level));
  }

  lemma LinedIdentity(s: State, level: nat)
    requires Inv(s) && s.q[FREE_PCBS] != [] && s.q[FREE_STACKS] != []
    ensures Shape(Lined(s, level))
    ensures var l, x := Lined(s, level), s.q[FREE_PCBS][0];
            && x != s.current && l.pcbs[x].pid == s.nextPid && l.pcbs[x].ppid == s.pcbs[s.current].pid
            && l.pcbs[x].level == level
  {
    hide Placed, StatusAgrees, StacksOwned, SleepersKeyed, ShmsSingle;
    ChildCore(s, level);
  }

  // -------- Code 2: sleep --------

  /** sleep(n) for n other than 0: the caller sleeps until n seconds from now, in 32 bits, and another process runs. */
  lemma TrapSleeps(s: State, first: nat, second: nat)
    requires Inv(s) && IdleSafe(s) && s.current != 0 && first % 0x1_0000 != 0
    ensures Trapped(s, 2, first, second).Ok?
    ensures var r, c := Trapped(s, 2, first, second).state, s.current;
            && r.current != c && c in r.q[SLEEPING] && r.pcbs[c].status == Sleeping
            && r.pcbs[c].wakeup == (s.now + first % 0x1_0000 * TICKS_PER_SECOND) % 0x1_0000_0000
  {
    hide Placed, StatusAgrees, StacksOwned, SleepersKeyed, ShmsSingle, SleepCall, IdleSafe;
    var num := first % HALF;
    LawfulStep(s, Sleep(first));
    var k := SleepAsks(s, num);
    assert SleepCall(s, num).state.q[SLEEPING][k] == s.current;
    SleeperSleeps(s, num);
  }

  lemma SleeperSleeps(s: State, num: nat)
    requires Inv(s) && num != 0 && SleepCall(s, num).Ok? && s.current in SleepCall(s, num).state.q[SLEEPING]
    requires Inv(SleepCall(s, num).state)
    ensures var r := SleepCall(s, num).state; r.current != s.current && r.pcbs[s.current].status == Sleeping
  {
    hide Placed, StacksOwned, SleepersKeyed, ShmsSingle;
    var t := Dozing(s, WakeTime(s, num));
    DozingCore(s, WakeTime(s, num));
    var l, k := DispatchMeans(t, {});
    assert t.pcbs[s.current].status == Sleeping;
  }

  /** sleep(0): the caller keeps the CPU or is the last one, ready, in the line of its level. */
  lemma TrapYields(s: State, first: nat, second: nat)
    requires Inv(s) && first % 0x1_0000 == 0
    ensures Trapped(s, 2, first, second).Ok?
    ensures var r, c := Trapped(s, 2, first, second).state, s.current;
            && r.now == s.now
            && var line := r.q[s.pcbs[c].level];
               r.current == c || (line != [] && line[|line| - 1] == c && r.pcbs[c].status == Ready)
    ensures s.q[0] == [] && s.q[1] == [] && s.q[2] == [] ==> Trapped(s, 2, first, second).state.current == s.current
    ensures OthersReady(s, s.current, s.pcbs[s.current].level) ==>
              Trapped(s, 2, first, second).state.current != s.current
  {
    hide Placed, StatusAgrees, StacksOwned, SleepersKeyed, ShmsSingle;
    YieldInv(s);
    var t := Schedule(s, s.current);
    CoreSchedule(s, {s.current}, s.current);
    assert {s.current} - {s.current} == {};
    OthersStayReady(s, t);
    LastInLine(t, s.current, s.pcbs[s.current].level);
    DispatchSparesSleepers(t, 0);
  }

  /** Who is ready is still ready when the caller has joined its line. */
  lemma OthersStayReady(s: State, t: State)
    requires Shape(s) && t == Schedule(s, s.current)
    ensures Shape(t)
    ensures OthersReady(s, s.current, s.pcbs[s.current].level) ==>
              OthersReady(t, s.current, s.pcbs[s.current].level)
  {
    var c, m := s.current, s.pcbs[s.current].level;
    if l: nat, x: Id :| l <= m && l < MLQ_LEVELS && x in s.q[l] && x != c && s.pcbs[x].status == Ready {
      assert x in t.q[l] && t.pcbs[x].status == Ready;
    }
  }

  // -------- Code 4: kill --------

  /** Where a process is, as the number of its state. */
  ghost function StateNumber(s: State, x: Id): nat
    requires Shape(s)
  {
    if s.pcbs[x].status == Zombie then 4
    else if x in s.q[SLEEPING] then 5
    else if x in s.q[READING] then 6
    else 2
  }

  /** The process is in use: it runs, is in line, sleeps or reads. */
  ghost predicate InUse(s: State, x: Id)
    requires Shape(s)
  {
    x == s.current || x in s.q[0] || x in s.q[1] || x in s.q[2] || x in s.q[SLEEPING] || x in s.q[READING]
  }

  /** Some process other than the caller is in use and has this pid. */
  ghost predicate Named(s: State, pid: nat)
    requires Shape(s)
  {
    exists x: Id :: InUse(s, x) && s.pcbs[x].pid == pid
  }

  /**
   * kill(p) of another process: the answer is -1 if and only if p is 0 or names no process in use, and then nothing
   * else happens; otherwise it is the state the victim was in, and the victim is marked. The caller goes on.
   */
  lemma TrapKills(s: State, first: nat, second: nat)
    requires Inv(s) && (first % 0x1_0000 == 0 || first % 0x1_0000 != s.pcbs[s.current].pid)
    ensures Trapped(s, 4, first, second).Ok?
    ensures var r, p := Trapped(s, 4, first, second).state, first % 0x1_0000;
            && r.current == s.current
            && (r.pcbs[s.current].eax == 0xFFFF_FFFF <==> p == 0 || !Named(s, p))
            && (p == 0 || !Named(s, p) ==> OnlyAnswers(s, r, 0xFFFF_FFFF))
            && (p != 0 && Named(s, p) ==>
                  exists x: Id ::
                    && InUse(s, x) && x != s.current && s.pcbs[x].pid == p && Hit(s, r, x))
  {
    hide Placed, StatusAgrees, StacksOwned, SleepersKeyed, ShmsSingle, StateNumber, InUse;
    var p := first % HALF;
    if p != 0 {
      FindsNamed(s, p);
      var x := Find(s.pcbs, p, 0);
      if x < MAX_PROCS {
        OldState(s, x);
        assert Hit(s, Trapped(s, 4, first, second).state, x);
      }
    }
  }

  /** The victim is marked, the caller is answered with the state it was in, and nothing else happens. */
  ghost predicate Hit(s: State, r: State, x: Id)
    requires Shape(s) && Shape(r)
  {
    && r == s.(pcbs := r.pcbs) && r.pcbs[x] == s.pcbs[x].(status := Zombie)
    && r.pcbs[s.current] == s.pcbs[s.current].(eax := StateNumber(s, x))
    && forall y: Id :: y != x && y != s.current ==> r.pcbs[y] == s.pcbs[y]
  }

  lemma FindsNamed(s: State, p: nat)
    requires Inv(s)
    ensures Find(s.pcbs, p, 0) < MAX_PROCS <==> Named(s, p)
    ensures Find(s.pcbs, p, 0) < MAX_PROCS ==>
              InUse(s, Find(s.pcbs, p, 0)) && s.pcbs[Find(s.pcbs, p, 0)].pid == p
  {
    hide StacksOwned, SleepersKeyed, ShmsSingle;
    forall x: Id ensures s.pcbs[x].status.Active() <==> InUse(s, x) {
      ActiveIffInUse(s, x);
    }
  }

  lemma ActiveIffInUse(s: State, x: Id)
    requires Inv(s)
    ensures s.pcbs[x].status.Active() <==> InUse(s, x)
  {
    hide StacksOwned, SleepersKeyed, ShmsSingle;
    ActiveMeansQueued(s, x);
    assert Occurrences(s, x) + (if x in {s.current} then 1 else 0) == 1;
  }

  /** The numbers of the states, by the place of the process. */
  lemma OldState(s: State, x: Id)
    requires Inv(s) && InUse(s, x) && x != s.current
    ensures s.pcbs[x].status.Code() == StateNumber(s, x) <= 6
  {
    hide StacksOwned, SleepersKeyed, ShmsSingle;
    assert Occurrences(s, x) + (if x in {s.current} then 1 else 0) == 1;
  }

  // -------- Codes 5 and 6: read and write --------

  /** read: the first buffered character, or the caller waits behind the other readers while another process runs. */
  lemma TrapReads(s: State, first: nat, second: nat)
    requires Inv(s) && IdleSafe(s) && (s.io.input == [] ==> s.current != 0)
    ensures Trapped(s, 5, first, second).Ok?
    ensures var r, c := Trapped(s, 5, first, second).state, s.current;
            if s.io.input != [] then
              && r == s.(pcbs := r.pcbs, io := r.io) && r.io.input == s.io.input[1..] && r.io.txd == s.io.txd
              && r.pcbs[c] == s.pcbs[c].(eax := s.io.input[0])
              && forall x: Id :: x != c ==> r.pcbs[x] == s.pcbs[x]
            else
              && r.current != c && r.q[READING] == s.q[READING] + [c] && r.pcbs[c].status == Blocked && r.io == s.io
  {
    hide Placed, StatusAgrees, StacksOwned, SleepersKeyed, ShmsSingle, IdleSafe;
    LawfulStep(s, Read);
    if s.io.input == [] {
      ReaderBlocks(s);
    }
  }

  lemma ReaderBlocks(s: State)
    requires Inv(s) && s.io.input == [] && ReadCall(s).Ok?
    ensures var r, c := ReadCall(s).state, s.current;
            && r.current != c && r.q[READING] == s.q[READING] + [c] && r.pcbs[c].status == Blocked && r.io == s.io
  {
    hide Placed, StacksOwned, SleepersKeyed, ShmsSingle;
    var t := Put(SetStatus(s, s.current, Blocked), READING, s.current);
    LeaveCore(s);
    DispatchSparesSleepers(t, 0);
    var l, k := DispatchMeans(t, {});
    assert t.pcbs[s.current].status == Blocked;
  }

  /** write: the bytes join the output stream, at once or behind what is buffered, and nothing else happens. */
  lemma TrapWrites(s: State, first: nat, second: nat)
    requires Inv(s) && RoomFor(s, Event.Write(first))
    ensures Trapped(s, 6, first, second).Ok?
    ensures var r, bytes := Trapped(s, 6, first, second).state, if first == 10 then [13, 10] else [first % 256];
            && r == s.(io := r.io) && r.io.input == s.io.input && r.io.sending
            && (s.io.sending ==> r.io.txd == s.io.txd && r.io.output == s.io.output + bytes)
            && (!s.io.sending ==> r.io.txd == s.io.txd + bytes[..1] && r.io.output == bytes[1..])
  {
    hide Placed, StatusAgrees, StacksOwned, SleepersKeyed, ShmsSingle;
    StepInv(s, Event.Write(first));
    WriteStarts(s, first);
  }

  // -------- Code 3 and bad codes: exit --------

  /** exit, and any code that is none: another process runs, and the caller's PCB and stack are back in their pools. */
  lemma TrapExits(s: State, code: nat, first: nat, second: nat)
    requires Inv(s) && IdleSafe(s) && s.current != 0 && (code == 3 || code >= 17)
    ensures Trapped(s, code, first, second).Ok?
    ensures var r, c := Trapped(s, code, first, second).state, s.current;
            && r.current != c && c in r.q[FREE_PCBS] && r.pcbs[c].status == Free
            && s.pcbs[c].stack.StackAt? && s.pcbs[c].stack.index in r.q[FREE_STACKS]
  {
    hide Placed, StatusAgrees, SleepersKeyed, ShmsSingle, IdleSafe;
    LawfulStep(s, Exit);
    LeaveCore(s);
    HeldIsOffQueues(s, {s.current}, s.current);
    var t := Cleanup(s, s.current);
    var l, k := DispatchMeans(t, {});
    var r := Dispatch(t).state;
    assert t.q[FREE_PCBS][|t.q[FREE_PCBS]| - 1] == s.current;
    assert t.q[FREE_STACKS][|t.q[FREE_STACKS]| - 1] == s.pcbs[s.current].stack.index;
    assert t.q[FREE_PCBS] <= r.q[FREE_PCBS] && t.q[FREE_STACKS] <= r.q[FREE_STACKS];
    FreeDoesNotRun(r, s.current);
  }

  lemma FreeDoesNotRun(s: State, x: Id)
    requires Inv(s) && x in s.q[FREE_PCBS]
    ensures s.current != x && s.pcbs[x].status == Free
  {
    hide StacksOwned, SleepersKeyed, ShmsSingle;
    HeldIsOffQueues(s, {s.current}, s.current);
  }

  // -------- Parents and children --------

  /** The PCB stays in use all along the run. */
  ghost predicate HeldThroughout(s: State, es: seq<Event>, x: Id)
    requires Shape(s)
    decreases |es|
  {
    x !in s.q[FREE_PCBS] && (es == [] || (Step(s, es[0]).Ok? ==> HeldThroughout(Step(s, es[0]).state, es[1..], x)))
  }

  /** A process keeps its pid, its parent's pid, its level and its stack as long as its PCB is in use. */
  lemma {:induction false} IdentityKept(s: State, es: seq<Event>, x: Id)
    requires Inv(s) && IdleSafe(s) && LawfulRun(s, es) && HeldThroughout(s, es, x)
    ensures Run(s, es).Ok? && SameIdentity(Run(s, es).state.pcbs[x], s.pcbs[x])
    decreases |es|
  {
    hide Placed, StatusAgrees, StacksOwned, SleepersKeyed, ShmsSingle, Step, IdleSafe;
    if es != [] {
      LawfulStep(s, es[0]);
      RunUnfold(s, es);
      PidStep(s, es[0]);
      assert s.q[FREE_PCBS] != [] ==> s.q[FREE_PCBS][0] in s.q[FREE_PCBS];
      IdentityKept(Step(s, es[0]).state, es[1..], x);
    }
  }

  /**
   * Whenever a child runs, getpid answers the pid that its parent got from spawn, and getppid the pid that its
   * parent gets from getpid.
   */
  lemma ChildKnowsParent(s: State, level: nat, es: seq<Event>)
    requires Inv(s) && IdleSafe(s) && s.q[FREE_PCBS] != []
    requires Trapped(s, 1, 0, level).Ok? && LawfulRun(Trapped(s, 1, 0, level).state, es)
    requires HeldThroughout(Trapped(s, 1, 0, level).state, es, s.q[FREE_PCBS][0])
    ensures var t, x := Trapped(s, 1, 0, level).state, s.q[FREE_PCBS][0];
            && Run(t, es).Ok?
            && var r := Run(t, es).state;
            && Inv(r)
            && (r.current == x ==>
                  && Trapped(r, 8, 0, 0).Ok? && Trapped(r, 9, 0, 0).Ok? && Trapped(s, 8, 0, 0).Ok?
                  && Trapped(r, 8, 0, 0).state.pcbs[x].eax == t.pcbs[s.current].eax
                  && Trapped(r, 9, 0, 0).state.pcbs[x].eax == Trapped(s, 8, 0, 0).state.pcbs[s.current].eax)
  {
    hide Placed, StatusAgrees, StacksOwned, SleepersKeyed, ShmsSingle, IdleSafe;
    hide Trapped, LawfulRun, Run, HeldThroughout;
    TrapSpawns(s, 1, 0, level);
    var t, x := Trapped(s, 1, 0, level).state, s.q[FREE_PCBS][0];
    SpawnIsLawful(s, level);
    RunSafe(t, es);
    IdentityKept(t, es, x);
    TrapAsks(s, 8, 0, 0);
    TrapAsks(Run(t, es).state, 8, 0, 0);
    TrapAsks(Run(t, es).state, 9, 0, 0);
  }

  lemma SpawnIsLawful(s: State, level: nat)
    requires Inv(s) && IdleSafe(s)
    ensures Trapped(s, 1, 0, level).Ok? && Inv(Trapped(s, 1, 0, level).state) && IdleSafe(Trapped(s, 1, 0, level).state)
  {
    LawfulStep(s, Spawn(level));
  }
}
