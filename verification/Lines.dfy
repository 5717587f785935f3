/** What a step does to the processes waiting in the ready queues. */
module Lines {
  import opened QueuePool
  import opened KernelModel
  import opened SerialModel
  import opened Ownership
  import opened Dispatching
  import opened Safety

  /** The step marks process `x`, which is not the current one, as killed. */
  ghost predicate Marks(s: State, e: Event, x: Id)
    requires Shape(s)
  {
    && e.Kill? && e.pid % HALF != 0 && e.pid % HALF != s.pcbs[s.current].pid
    && Find(s.pcbs, e.pid % HALF, 0) == x
  }

  /** `t` has the ready queues of `s` with perhaps more at their tails, and the same PCBs in them but for a kill. */
  ghost predicate Extends(s: State, t: State, e: Event)
    requires Shape(s) && Shape(t)
  {
    && (forall l :: 0 <= l < MLQ_LEVELS ==> s.q[l] <= t.q[l])
    && (forall l, x :: 0 <= l < MLQ_LEVELS && x in s.q[l] ==>
          t.pcbs[x] == if Marks(s, e, x) then s.pcbs[x].(status := Zombie) else s.pcbs[x])
  }

  lemma ExtendsSchedule(s: State, t: State, out: set<Id>, x: Id, e: Event)
    requires Shape(s) && Core(t, out) && x in out && Extends(s, t, e)
    ensures Extends(s, Schedule(t, x), e)
  {
    HeldIsOffQueues(t, out, x);
    assert forall l, y :: 0 <= l < MLQ_LEVELS && y in s.q[l] ==> y in t.q[l];
  }

  lemma {:induction false} ExtendsWake(s: State, t: State, out: set<Id>, e: Event)
    requires Shape(s) && Core(t, out) && t.current in out && Extends(s, t, e)
    ensures Extends(s, Wake(t), e)
    decreases |t.q[SLEEPING]|
  {
    hide Placed, StacksOwned, SleepersKeyed, ShmsSingle;
    if t.keys != [] && t.keys[0] <= t.now {
      var x, t1 := t.q[SLEEPING][0], Take(t, SLEEPING);
      assert x in t.q[SLEEPING];
      CoreTake(t, out, SLEEPING);
      ExtendsSchedule(s, t1, out + {x}, x, e);
      WakeOneCore(t, out);
      ExtendsWake(s, Schedule(t1, x), out, e);
    }
  }

  /** Changing a PCB that the kernel holds does not disturb the line. */
  lemma ExtendsSetPcb(s: State, t: State, out: set<Id>, x: Id, pcb: Pcb, e: Event)
    requires Shape(s) && Core(t, out) && x in out && Extends(s, t, e)
    ensures Extends(s, SetPcb(t, x, pcb), e)
  {
    HeldIsOffQueues(t, out, x);
    assert forall l, y :: 0 <= l < MLQ_LEVELS && y in s.q[l] ==> y in t.q[l];
  }

  lemma ExtendsSelf(s: State, e: Event)
    requires Shape(s) && !e.Kill?
    ensures Extends(s, s, e)
  {
  }

  /** Every handler first extends the line to `t` and then either dispatches or keeps the current process. */
  ghost predicate Via(s: State, e: Event, t: State, dispatches: bool)
    requires Shape(s) && Shape(t)
  {
    && Extends(s, t, e)
    && (if dispatches then Core(t, {}) && Step(s, e) == Dispatch(t) else Step(s, e) == Ok(t) && t.current == s.current)
  }

  /** Requeueing the current process extends the line, and leaves the kernel holding nobody. */
  lemma Requeue(s: State, w: State, e: Event)
    requires Shape(s) && Core(w, {w.current}) && Extends(s, w, e) && w.pcbs[w.current].level < MLQ_LEVELS
    ensures Core(Schedule(w, w.current), {}) && Extends(s, Schedule(w, w.current), e)
  {
    ExtendsSchedule(s, w, {w.current}, w.current, e);
    CoreSchedule(w, {w.current}, w.current);
    assert {w.current} - {w.current} == {};
  }

  lemma AwakeExtends(s: State)
    requires Inv(s)
    ensures var w := Wake(s.(now := NextTime(s)));
            Inv(w) && Extends(s, w, Tick) && w.pcbs[s.current] == s.pcbs[s.current]
  {
    var s0 := s.(now := NextTime(s));
    ClockCore(s, {s.current}, NextTime(s));
    ExtendsWake(s, s0, {s.current}, Tick);
    WakeCore(s0, {s.current});
  }

  lemma SpendQuantum(s: State, w: State, e: Event)
    requires Shape(s) && Core(w, {w.current}) && Extends(s, w, e) && w.pcbs[w.current].quantum > 0
    ensures Quantum(w).Ok? && Extends(s, Quantum(w).state, e) && Quantum(w).state.current == w.current
  {
    ExtendsSetPcb(s, w, {w.current}, w.current, w.pcbs[w.current].(quantum := w.pcbs[w.current].quantum - 1), e);
  }

  lemma ViaTick(s: State) returns (t: State, d: bool)
    requires Inv(s)
    ensures Shape(t) && Via(s, Tick, t, d)
    ensures d <==> s.pcbs[s.current].quantum == 0
    ensures var w := Wake(s.(now := NextTime(s))); d ==> t == Schedule(w, s.current)
  {
    AwakeExtends(s);
    var w := Wake(s.(now := NextTime(s)));
    assert Step(s, Tick) == Quantum(w);
    d := w.pcbs[w.current].quantum == 0;
    if d {
      t := Schedule(w, w.current);
      Requeue(s, w, Tick);
    } else {
      t := Quantum(w).state;
      SpendQuantum(s, w, Tick);
    }
  }

  lemma ViaSpawn(s: State, level: nat) returns (t: State, d: bool)
    requires Inv(s)
    ensures Shape(t) && Via(s, Spawn(level), t, d)
    ensures d <==> s.q[FREE_PCBS] != []
    ensures d ==> s.q[FREE_STACKS] != [] && t == Schedule(Admit(Child(s, level % 256), s.q[FREE_PCBS][0]), s.current)
  {
    hide SleepersKeyed, ShmsSingle;
    var c, e := s.current, Spawn(level);
    ExtendsSelf(s, e);
    d := s.q[FREE_PCBS] != [];
    if !d {
      t := SetEax(s, c, MINUS_ONE);
      ExtendsSetPcb(s, s, {c}, c, s.pcbs[c].(eax := MINUS_ONE), e);
    } else {
      var x, u := s.q[FREE_PCBS][0], Child(s, level % 256);
      ChildCore(s, level % 256);
      AdmitCore(u, c, x);
      ExtendsChild(s, level);
      ExtendsAdmit(s, u, c, x, e);
      var a := Admit(u, x);
      t := Schedule(a, c);
      Requeue(s, a, e);
    }
  }

  lemma ExtendsChild(s: State, level: nat)
    requires Inv(s) && s.q[FREE_PCBS] != [] && s.q[FREE_STACKS] != []
    ensures Extends(s, Child(s, level % 256), Spawn(level))
  {
    var x := s.q[FREE_PCBS][0];
    OnOneQueue(s, {s.current}, FREE_PCBS, x);
    HeldIsOffQueues(s, {s.current}, s.current);
  }

  lemma ExtendsAdmit(s: State, u: State, c: Id, x: Id, e: Event)
    requires Shape(s) && Core(u, {c} + {x}) && Extends(s, u, e)
    ensures Extends(s, Admit(u, x), e)
  {
    if u.pcbs[x].level < MLQ_LEVELS {
      ExtendsSchedule(s, u, {c} + {x}, x, e);
    }
  }

  lemma ViaSleep(s: State, num: nat) returns (t: State, d: bool)
    requires Inv(s)
    ensures Shape(t) && Via(s, Sleep(num), t, d) && d
    ensures t == if num % HALF == 0 then Schedule(s, s.current) else Dozing(s, WakeTime(s, num % HALF))
  {
    hide Placed, StatusAgrees, StacksOwned, SleepersKeyed, ShmsSingle, WakeTime;
    ExtendsSelf(s, Sleep(num));
    d := true;
    if num % HALF == 0 {
      t := Schedule(s, s.current);
      Requeue(s, s, Sleep(num));
    } else {
      var wakeup := WakeTime(s, num % HALF);
      t := Dozing(s, wakeup);
      DozingCore(s, wakeup);
      DozingExtends(s, wakeup, Sleep(num));
    }
  }

  lemma DozingExtends(s: State, wakeup: nat, e: Event)
    requires Inv(s) && !e.Kill?
    ensures Extends(s, Dozing(s, wakeup), e)
  {
    ExtendsSetPcb(s, s, {s.current}, s.current, s.pcbs[s.current].(wakeup := wakeup, status := Sleeping), e);
  }

  /** Exit, a kill of oneself, and a read that blocks. */
  lemma ViaLeave(s: State, e: Event) returns (t: State, d: bool)
    requires Inv(s) && (e.Exit? || (e.Kill? && Leaves(s, e)) || (e.Read? && Leaves(s, e)))
    ensures Shape(t) && Via(s, e, t, d) && d
    ensures t == if e.Exit? then Cleanup(s, s.current)
                 else if e.Kill? then Cleanup(SetEax(s, s.current, MINUS_ONE), s.current)
                 else Put(SetStatus(s, s.current, Blocked), READING, s.current)
  {
    d := true;
    LeaveExtends(s, e);
    LeaveCore(s);
    match e {
      case Exit => t := Cleanup(s, s.current);
      case Kill(pid) =>
        t := Cleanup(SetEax(s, s.current, MINUS_ONE), s.current);
        EaxInv(s, MINUS_ONE);
        LeaveCore(SetEax(s, s.current, MINUS_ONE));
      case Read => t := Put(SetStatus(s, s.current, Blocked), READING, s.current);
    }
  }

  lemma LeaveExtends(s: State, e: Event)
    requires Inv(s) && forall x: Id :: !Marks(s, e, x)
    ensures Extends(s, Cleanup(s, s.current), e)
    ensures Extends(s, Cleanup(SetEax(s, s.current, MINUS_ONE), s.current), e)
    ensures Extends(s, Put(SetStatus(s, s.current, Blocked), READING, s.current), e)
  {
    HeldIsOffQueues(s, {s.current}, s.current);
  }

  lemma ViaKill(s: State, pid: nat) returns (t: State, d: bool)
    requires Inv(s) && !Leaves(s, Kill(pid))
    ensures Shape(t) && Via(s, Kill(pid), t, d) && !d
  {
    d, t := false, Step(s, Kill(pid)).state;
    HeldIsOffQueues(s, {s.current}, s.current);
  }

  lemma ViaReceive(s: State, ch: nat) returns (t: State, d: bool)
    requires Inv(s) && RoomFor(s, Receive(ch))
    ensures Shape(t) && Via(s, Receive(ch), t, d) && !d
  {
    ReceiveInv(s, ch);
    d, t := false, ReceiveByte(s, ch).state;
    if s.q[READING] != [] {
      HandOverExtends(s, MapCR(ch % 256), Receive(ch));
    }
  }

  lemma HandOverExtends(s: State, c: nat, e: Event)
    requires Inv(s) && s.q[READING] != [] && !e.Kill?
    ensures var x := s.q[READING][0]; Extends(s, Schedule(SetEax(Take(s, READING), x, c), x), e)
  {
    var x, u := s.q[READING][0], Take(s, READING);
    assert x in s.q[READING];
    CoreTake(s, {s.current}, READING);
    ExtendsSetPcb(s, u, {s.current} + {x}, x, u.pcbs[x].(eax := c), e);
    CoreSetPcb(u, {s.current} + {x}, x, u.pcbs[x].(eax := c));
    ExtendsSchedule(s, SetEax(u, x, c), {s.current} + {x}, x, e);
  }

  lemma EaxExtends(s: State, eax: nat, e: Event)
    requires Inv(s) && !e.Kill?
    ensures Extends(s, SetEax(s, s.current, eax), e)
  {
    HeldIsOffQueues(s, {s.current}, s.current);
  }

  /** Calls that only answer the caller, and the rest of the events. */
  lemma ViaQuiet(s: State, e: Event) returns (t: State, d: bool)
    requires Inv(s) && Step(s, e).Ok? && !Leaves(s, e)
    requires !e.Tick? && !e.Receive? && !e.Spawn? && !e.Sleep? && !e.Kill? && !e.Exit?
    ensures Shape(t) && Via(s, e, t, d) && !d
  {
    d, t := false, Step(s, e).state;
    match e {
      case Read => EaxExtends(s, s.io.input[0], e);
      case Time => EaxExtends(s, s.now / TICKS_PER_SECOND, e);
      case GetPid => EaxExtends(s, s.pcbs[s.current].pid, e);
      case GetPpid => EaxExtends(s, s.pcbs[s.current].ppid, e);
      case GetPidList(size) => EaxExtends(s, |ActivePids(s.pcbs, MAX_PROCS)|, e);
      case _ => ExtendsSelf(s, e);
    }
  }

  /** The handler ends with a dispatch. */
  ghost predicate Dispatches(s: State, e: Event)
    requires Shape(s)
  {
    match e
    case Tick => s.pcbs[s.current].quantum == 0
    case Spawn(level) => s.q[FREE_PCBS] != []
    case Sleep(num) => true
    case _ => Leaves(s, e)
  }

  lemma StepVia(s: State, e: Event) returns (t: State, d: bool)
    requires Inv(s) && ShmDiscipline(s, e) && Step(s, e).Ok?
    ensures Shape(t) && Via(s, e, t, d) && (d <==> Dispatches(s, e))
  {
    hide Placed, StatusAgrees, StacksOwned, SleepersKeyed, ShmsSingle;
    StepInv(s, e);
    match e {
      case Tick => t, d := ViaTick(s);
      case Receive(ch) => t, d := ViaReceive(s, ch);
      case Spawn(level) => t, d := ViaSpawn(s, level);
      case Sleep(num) => t, d := ViaSleep(s, num);
      case Exit => t, d := ViaLeave(s, e);
      case Kill(pid) => if Leaves(s, e) { t, d := ViaLeave(s, e); } else { t, d := ViaKill(s, pid); }
      case _ => if Leaves(s, e) { t, d := ViaLeave(s, e); } else { t, d := ViaQuiet(s, e); }
    }
  }
}
