/** The kernel invariant over single steps and whole runs: what every event keeps, and exactly when one can fail. */
module Safety {
  import opened QueuePool
  import opened KernelModel
  import opened SerialModel
  import opened Ownership
  import opened Dispatching

  /** A segment is released only while it is allocated. */
  ghost predicate ShmDiscipline(s: State, e: Event)
    requires Shape(s)
  {
    e.ShmFree? ==> e.segment < MAX_SHMS && e.segment !in s.q[FREE_SHMS]
  }

  /** The current process gives up the CPU without being put back on a ready queue. */
  ghost predicate Leaves(s: State, e: Event)
    requires Shape(s)
  {
    match e
    case Exit => true
    case Kill(pid) => pid % HALF != 0 && pid % HALF == s.pcbs[s.current].pid
    case Sleep(num) => num % HALF != 0
    case Read => s.io.input == []
    case _ => false
  }

  /** The linear serial buffers have room for what this event may store. */
  ghost predicate RoomFor(s: State, e: Event)
    requires Shape(s)
  {
    match e
    case Receive(ch) => s.q[READING] != [] || |s.io.input| == BUF_SIZE || s.io.stored < BUF_SIZE
    case Write(ch) => !s.io.sending || s.io.queued + (if ch == LF then 2 else 1) <= BUF_SIZE
    case _ => true
  }

  // -------- Serial steps --------

  lemma SerialStore(io: Sio, ch: nat)
    requires SerialOk(io) && ch < 256
    ensures Store(io, ch).Overflow? <==> |io.input| < BUF_SIZE && io.stored == BUF_SIZE
    ensures Store(io, ch).Fine? ==> SerialOk(Store(io, ch).sio)
  {
  }

  lemma SerialFetch(io: Sio)
    requires SerialOk(io) && io.input != []
    ensures SerialOk(Fetch(io))
  {
  }

  lemma SerialWrite(io: Sio, ch: nat)
    requires SerialOk(io)
    ensures SerialModel.Write(io, ch).Overflow? <==> io.sending && io.queued + (if ch == LF then 2 else 1) > BUF_SIZE
    ensures SerialModel.Write(io, ch).Fine? ==>
              SerialOk(SerialModel.Write(io, ch).sio) && SerialModel.Write(io, ch).sio.input == io.input
  {
  }

  // -------- Each handler --------

  lemma WakeOneCore(s: State, out: set<Id>)
    requires Core(s, out) && s.current in out && s.q[SLEEPING] != []
    ensures var x := s.q[SLEEPING][0]; var t := Schedule(Take(s, SLEEPING), x);
            && Core(t, out) && x != s.current && t.pcbs[s.current] == s.pcbs[s.current]
            && t.q[READING] == s.q[READING]
  {
    hide Placed, StacksOwned, SleepersKeyed, ShmsSingle;
    var x, t := s.q[SLEEPING][0], Take(s, SLEEPING);
    assert x in s.q[SLEEPING];
    CoreTake(s, out, SLEEPING);
    CoreSchedule(t, out + {x}, x);
    assert out + {x} - {x} == out;
  }

  lemma {:induction false} WakeCore(s: State, out: set<Id>)
    requires Core(s, out) && s.current in out
    ensures Core(Wake(s), out) && Wake(s).pcbs[s.current] == s.pcbs[s.current]
    ensures Wake(s).io == s.io && Wake(s).q[READING] == s.q[READING]
    decreases |s.q[SLEEPING]|
  {
    if s.keys != [] && s.keys[0] <= s.now {
      WakeOneCore(s, out);
      WakeCore(Schedule(Take(s, SLEEPING), s.q[SLEEPING][0]), out);
    }
  }

  /** A dispatch from a state in which the kernel holds nobody gives back the invariant. */
  lemma DispatchInv(s: State)
    requires Core(s, {}) && SerialOk(s.io) && (s.q[READING] != [] ==> s.io.input == [])
    ensures Dispatch(s).Ok? ==> Inv(Dispatch(s).state)
    ensures !Dispatch(s).Overrun? && (Dispatch(s).Ok? <==> AnyReady(s, 0))
  {
    DispatchPanicsIff(s, {});
    if Dispatch(s).Ok? {
      DispatchCore(s, {}, 0);
      var c := Dispatch(s).state.current;
      assert {} + {c} == {c};
    }
  }

  /** Putting the current process back on its ready queue makes the next dispatch succeed. */
  lemma YieldInv(s: State)
    requires Core(s, {s.current}) && s.pcbs[s.current].level < MLQ_LEVELS
    requires SerialOk(s.io) && (s.q[READING] != [] ==> s.io.input == [])
    ensures Dispatch(Schedule(s, s.current)).Ok? && Inv(Dispatch(Schedule(s, s.current)).state)
  {
    var t := Schedule(s, s.current);
    CoreSchedule(s, {s.current}, s.current);
    assert {s.current} - {s.current} == {};
    var l := s.pcbs[s.current].level;
    assert s.current in t.q[l] && t.pcbs[s.current].status == Ready;
    DispatchInv(t);
  }

  lemma ClockCore(s: State, out: set<Id>, now: nat)
    requires Core(s, out) && now < WORD
    ensures Core(s.(now := now), out)
  {
    assert forall x: Id :: Occurrences(s.(now := now), x) == Occurrences(s, x);
  }

  lemma TickInv(s: State)
    requires Inv(s)
    ensures Tock(s).Ok? && Inv(Tock(s).state)
  {
    WakeInv(s, NextTime(s));
    QuantumInv(Wake(s.(now := NextTime(s))));
  }

  lemma WakeInv(s: State, now: nat)
    requires Inv(s) && now < WORD
    ensures Inv(Wake(s.(now := now)))
  {
    ClockCore(s, {s.current}, now);
    WakeCore(s.(now := now), {s.current});
  }

  lemma QuantumInv(t: State)
    requires Inv(t)
    ensures Quantum(t).Ok? && Inv(Quantum(t).state)
  {
    var pcb := t.pcbs[t.current];
    if pcb.quantum == 0 {
      YieldInv(t);
    } else {
      CoreSetPcb(t, {t.current}, t.current, pcb.(quantum := pcb.quantum - 1));
    }
  }

  lemma ChildCore(s: State, level: nat)
    requires Inv(s) && s.q[FREE_PCBS] != []
    ensures s.q[FREE_STACKS] != []
    ensures var x, r := s.q[FREE_PCBS][0], Child(s, level);
            && Core(r, {s.current} + {x}) && x != s.current && r.pcbs[x].status == Free
            && r.pcbs[s.current] == s.pcbs[s.current].(eax := s.nextPid)
            && r.io == s.io && r.q[READING] == s.q[READING] && r.current == s.current
  {
    hide SleepersKeyed, ShmsSingle;
    var c, x := s.current, s.q[FREE_PCBS][0];
    CoreNewProc(s, {c}, level);
    var s1 := NewProc(s, level);
    CoreSetPcb(s1, {c} + {x}, c, s1.pcbs[c].(eax := s1.pcbs[x].pid));
    var s2 := SetEax(s1, c, s1.pcbs[x].pid);
    CoreSetPcb(s2, {c} + {x}, x, s2.pcbs[x].(ppid := s2.pcbs[c].pid));
  }

  lemma SpawnInv(s: State, level: nat)
    requires Inv(s)
    ensures SpawnCall(s, level).Ok? && Inv(SpawnCall(s, level).state)
  {
    if s.q[FREE_PCBS] == [] {
      EaxInv(s, MINUS_ONE);
    } else {
      var x, t := s.q[FREE_PCBS][0], Child(s, level);
      ChildCore(s, level);
      AdmitCore(t, s.current, x);
      YieldInv(Admit(t, x));
    }
  }

  lemma AdmitCore(s: State, c: Id, x: Id)
    requires Core(s, {c} + {x}) && c != x && s.pcbs[x].status == Free
    ensures Core(Admit(s, x), {c}) && Admit(s, x).pcbs[c] == s.pcbs[c] && Admit(s, x).current == s.current
    ensures Admit(s, x).io == s.io && Admit(s, x).q[READING] == s.q[READING]
  {
    assert {c} + {x} - {x} == {c};
    if s.pcbs[x].level >= MLQ_LEVELS {
      CoreLeak(s, {c} + {x}, x);
    } else {
      CoreSchedule(s, {c} + {x}, x);
    }
  }

  /** A process that leaves the CPU leaves the kernel holding nobody. */
  lemma LeaveCore(s: State)
    requires Inv(s)
    ensures Core(Cleanup(s, s.current), {})
    ensures Core(Put(SetStatus(s, s.current, Blocked), READING, s.current), {})
  {
    var c := s.current;
    assert {c} - {c} == {};
    CoreCleanup(s, {c}, c);
    CoreSetPcb(s, {c}, c, s.pcbs[c].(status := Blocked));
    CoreBlock(SetStatus(s, c, Blocked), {c}, c);
  }

  lemma DozingCore(s: State, wakeup: nat)
    requires Inv(s) && wakeup < WORD
    ensures Core(Dozing(s, wakeup), {})
  {
    var c := s.current;
    var pcb := s.pcbs[c].(wakeup := wakeup, status := Sleeping);
    CoreSetPcb(s, {c}, c, pcb);
    CoreSleep(SetPcb(s, c, pcb), {c}, c);
    assert {c} - {c} == {};
  }

  lemma SleepInv(s: State, num: nat)
    requires Inv(s)
    ensures SleepCall(s, num).Ok? ==> Inv(SleepCall(s, num).state)
    ensures !SleepCall(s, num).Overrun?
    ensures SleepCall(s, num).Ok? <==> num == 0 || AnyReady(s, 0)
  {
    if num == 0 {
      YieldInv(s);
    } else {
      var wakeup := WakeTime(s, num);
      DozingCore(s, wakeup);
      DispatchInv(Dozing(s, wakeup));
      SameLine(s, Dozing(s, wakeup));
    }
  }

  /** Readiness of the line depends only on the ready queues and the PCBs in them. */
  lemma SameLine(s: State, t: State)
    requires Core(s, {s.current}) && Shape(t)
    requires forall m :: 0 <= m < MLQ_LEVELS ==> t.q[m] == s.q[m]
    requires forall x: Id :: x != s.current ==> t.pcbs[x] == s.pcbs[x]
    ensures AnyReady(s, 0) <==> AnyReady(t, 0)
  {
    HeldIsOffQueues(s, {s.current}, s.current);
    if AnyReady(s, 0) {
      var m, x :| 0 <= m < MLQ_LEVELS && x in s.q[m] && s.pcbs[x].status == Ready;
      assert x in t.q[m] && t.pcbs[x].status == Ready;
    }
    if AnyReady(t, 0) {
      var m, x :| 0 <= m < MLQ_LEVELS && x in t.q[m] && t.pcbs[x].status == Ready;
      assert x in s.q[m] && s.pcbs[x].status == Ready;
    }
  }

  lemma ExitInv(s: State)
    requires Inv(s)
    ensures ExitCall(s).Ok? ==> Inv(ExitCall(s).state)
    ensures !ExitCall(s).Overrun?
    ensures ExitCall(s).Ok? <==> AnyReady(s, 0)
  {
    LeaveCore(s);
    DispatchInv(Cleanup(s, s.current));
    SameLine(s, Cleanup(s, s.current));
  }

  lemma EaxInv(s: State, eax: nat)
    requires Inv(s)
    ensures Inv(SetEax(s, s.current, eax))
  {
    CoreSetPcb(s, {s.current}, s.current, s.pcbs[s.current].(eax := eax));
  }

  lemma KillInv(s: State, pid: nat)
    requires Inv(s)
    ensures KillCall(s, pid).Ok? ==> Inv(KillCall(s, pid).state)
    ensures !KillCall(s, pid).Overrun?
    ensures KillCall(s, pid).Ok? <==> pid == 0 || pid != s.pcbs[s.current].pid || AnyReady(s, 0)
  {
    EaxInv(s, MINUS_ONE);
    if pid != 0 && pid == s.pcbs[s.current].pid {
      var s1 := SetEax(s, s.current, MINUS_ONE);
      ExitInv(s1);
      SameLine(s, s1);
    } else if pid != 0 && Find(s.pcbs, pid, 0) < MAX_PROCS {
      MarkInv(s, Find(s.pcbs, pid, 0));
    }
  }

  lemma MarkInv(s: State, x: Id)
    requires Inv(s) && x != s.current && s.pcbs[x].status.Active()
    ensures Inv(SetStatus(SetEax(SetEax(s, s.current, MINUS_ONE), s.current, s.pcbs[x].status.Code()), x, Zombie))
  {
    var eax := s.pcbs[x].status.Code();
    EaxInv(s, eax);
    assert SetEax(SetEax(s, s.current, MINUS_ONE), s.current, eax) == SetEax(s, s.current, eax);
    CoreZombie(SetEax(s, s.current, eax), {s.current}, x);
  }

  lemma ReadInv(s: State)
    requires Inv(s)
    ensures ReadCall(s).Ok? ==> Inv(ReadCall(s).state)
    ensures !ReadCall(s).Overrun?
    ensures ReadCall(s).Ok? <==> s.io.input != [] || AnyReady(s, 0)
  {
    if s.io.input != [] {
      SerialFetch(s.io);
      var t := s.(io := Fetch(s.io));
      assert forall x: Id :: Occurrences(t, x) == Occurrences(s, x);
      EaxInv(t, s.io.input[0]);
    } else {
      LeaveCore(s);
      var t := Put(SetStatus(s, s.current, Blocked), READING, s.current);
      DispatchInv(t);
      SameLine(s, t);
    }
  }

  lemma HandOverInv(s: State, c: nat)
    requires Inv(s) && s.q[READING] != []
    ensures Inv(Schedule(SetEax(Take(s, READING), s.q[READING][0], c), s.q[READING][0]))
  {
    var x, t := s.q[READING][0], Take(s, READING);
    assert x in s.q[READING];
    CoreTake(s, {s.current}, READING);
    CoreSetPcb(t, {s.current} + {x}, x, t.pcbs[x].(eax := c));
    CoreSchedule(SetEax(t, x, c), {s.current} + {x}, x);
    assert {s.current} + {x} - {x} == {s.current};
  }

  lemma ReceiveInv(s: State, ch: nat)
    requires Inv(s)
    ensures ReceiveByte(s, ch).Ok? ==> Inv(ReceiveByte(s, ch).state)
    ensures !ReceiveByte(s, ch).Panic? && (ReceiveByte(s, ch).Ok? <==> RoomFor(s, Receive(ch)))
  {
    var c := MapCR(ch % 256);
    if s.q[READING] != [] {
      HandOverInv(s, c);
    } else {
      SerialStore(s.io, c);
      IoCore(s, Store(s.io, c));
    }
  }

  lemma IoCore(s: State, o: SioOutcome)
    requires Core(s, {s.current})
    ensures o.Fine? ==> Core(s.(io := o.sio), {s.current})
  {
    assert o.Fine? ==> forall x: Id :: Occurrences(s.(io := o.sio), x) == Occurrences(s, x);
  }

  lemma ShmInv(s: State, e: Event)
    requires Inv(s) && (e.ShmAlloc? || e.ShmFree?) && ShmDiscipline(s, e)
    ensures Step(s, e).Ok? && Inv(Step(s, e).state)
  {
    var t := Step(s, e).state;
    assert forall x: Id :: Occurrences(t, x) == Occurrences(s, x);
    assert forall k :: k in t.q[FREE_SHMS] ==> k in s.q[FREE_SHMS] || (e.ShmFree? && k == e.segment);
  }

  // -------- The step theorem --------

  /** Every event keeps the invariant. */
  lemma StepInv(s: State, e: Event)
    requires Inv(s) && ShmDiscipline(s, e)
    ensures Step(s, e).Ok? ==> Inv(Step(s, e).state)
    ensures Step(s, e) == Panic <==> Leaves(s, e) && !AnyReady(s, 0)
    ensures Step(s, e) == Overrun <==> !RoomFor(s, e)
  {
    hide Placed, StatusAgrees, StacksOwned, SleepersKeyed, ShmsSingle;
    match e
    case Tick => TickInv(s);
    case TransmitReady => IoCore(s, Fine(Transmit(s.io)));
    case Receive(ch) => ReceiveInv(s, ch);
    case Spawn(level) => SpawnInv(s, level % 256);
    case Sleep(num) => SleepInv(s, num % HALF);
    case Exit => ExitInv(s);
    case Kill(pid) => KillInv(s, pid % HALF);
    case Read => ReadInv(s);
    case Write(ch) => SerialWrite(s.io, ch); IoCore(s, SerialModel.Write(s.io, ch));
    case Time => EaxInv(s, s.now / TICKS_PER_SECOND);
    case GetPid => EaxInv(s, s.pcbs[s.current].pid);
    case GetPpid => EaxInv(s, s.pcbs[s.current].ppid);
    case GetPidList(size) => EaxInv(s, |ActivePids(s.pcbs, MAX_PROCS)|);
    case ShmAlloc => ShmInv(s, e);
    case ShmFree(segment) => ShmInv(s, e);
  }
}
