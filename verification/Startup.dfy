/** The outer edge of the kernel: how _init brings it up, and how a system call reaches its handler. */
module Startup {
  import opened QueuePool
  import opened KernelModel
  import opened Ownership
  import opened Runs
  import opened ProcessKernel

  /** Power-up with the first `p` PCBs, `k` stacks and `m` shared segments already in their pools. */
  ghost function Filled(p: nat, k: nat, m: nat): (s: State)
    requires p <= MAX_PROCS && k <= MAX_PROCS && m <= MAX_SHMS
    ensures Shape(s) && NodesInUse(s) == p + k + m
  {
    Bare().(q := [[], [], [], [], [], Ids(p), Ids(k), Ids(m)])
  }

  lemma FilledGrows(p: nat, k: nat, m: nat)
    requires p <= MAX_PROCS && k <= MAX_PROCS && m <= MAX_SHMS
    ensures p < MAX_PROCS ==>
              SetStatus(Filled(p, k, m), p, Free) == Filled(p, k, m)
              && Put(Filled(p, k, m), FREE_PCBS, p) == Filled(p + 1, k, m)
    ensures k < MAX_PROCS ==> Put(Filled(p, k, m), FREE_STACKS, k) == Filled(p, k + 1, m)
    ensures m < MAX_SHMS ==> Put(Filled(p, k, m), FREE_SHMS, m) == Filled(p, k, m + 1)
  {
    var s := Filled(p, k, m);
    if p < MAX_PROCS {
      assert SetStatus(s, p, Free).pcbs == s.pcbs;
    }
  }

  lemma FilledEnds()
    ensures Filled(0, 0, 0) == Bare() && Filled(MAX_PROCS, MAX_PROCS, MAX_SHMS) == Pristine()
  {
    assert Filled(0, 0, 0).q == Bare().q;
    assert Ids(MAX_SHMS) == [0, 1, 2, 3];
  }

  /** _pcb_init: every PCB goes to the free queue. */
  method PcbInit(k: Kernel)
    requires k.Valid() && k.View() == Filled(0, 0, 0)
    modifies k.pool, k.pool.nodes, k.pool.queues, k.pcbs
    ensures k.Valid() && k.View() == Filled(MAX_PROCS, 0, 0)
  {
    hide Kernel.Wired, NodesInUse, Filled;
    for x := 0 to MAX_PROCS
      invariant k.Valid() && k.View() == Filled(x, 0, 0)
    {
      FilledGrows(x, 0, 0);
      var stat := k.PcbDealloc(x);
    }
  }

  /** _stack_init: every stack goes to the free queue. */
  method StackInit(k: Kernel)
    requires k.Valid() && k.View() == Filled(MAX_PROCS, 0, 0)
    modifies k.pool, k.pool.nodes, k.pool.queues
    ensures k.Valid() && k.View() == Filled(MAX_PROCS, MAX_PROCS, 0)
  {
    hide Kernel.Wired, NodesInUse, Filled;
    for x := 0 to MAX_PROCS
      invariant k.Valid() && k.View() == Filled(MAX_PROCS, x, 0)
    {
      FilledGrows(MAX_PROCS, x, 0);
      var stat := k.StackDealloc(x);
    }
  }

  /** _shm_init: every segment goes to the free queue. */
  method ShmInit(k: Kernel)
    requires k.Valid() && k.View() == Filled(MAX_PROCS, MAX_PROCS, 0)
    modifies k.pool, k.pool.nodes, k.pool.queues
    ensures k.Valid() && k.View() == Filled(MAX_PROCS, MAX_PROCS, MAX_SHMS)
  {
    hide Kernel.Wired, NodesInUse, Filled;
    for x := 0 to MAX_SHMS
      invariant k.Valid() && k.View() == Filled(MAX_PROCS, MAX_PROCS, x)
    {
      FilledGrows(MAX_PROCS, MAX_PROCS, x);
      var stat := k.ShmDealloc(x);
    }
  }

  /** A free PCB, a free stack, and room to schedule the process made from them. */
  lemma CreateRoom(s: State, level: nat)
    requires Core(s, {}) && s.q[FREE_PCBS] != [] && level < MLQ_LEVELS
    ensures s.q[FREE_STACKS] != [] && NodesInUse(NewProc(s, level)) < NODE_COUNT
    ensures NewProc(s, level).pcbs[s.q[FREE_PCBS][0]].level == level
  {
    CreateCore(s, level);
    NodesSuffice(s, {});
  }

  /** One of the three creations of _init. */
  method CreateProcess(k: Kernel, level: nat)
    requires k.Valid() && Creatable(k.View()) && level < MLQ_LEVELS
    modifies k.pool, k.pool.nodes, k.pool.queues, k.pcbs, k`nextPid
    ensures k.Valid() && k.View() == Create(old(k.View()), level)
  {
    hide Core, NodesInUse, NewProc, Kernel.Wired;
    CreateRoom(k.View(), level);
    var pcb := MakeOne(k, level);
    var stat := k.Schedule(pcb);
  }

  /** A PCB and a stack from the pools, made into a process. */
  method MakeOne(k: Kernel, level: nat) returns (pcb: Id)
    requires k.Valid() && k.View().q[FREE_PCBS] != [] && k.View().q[FREE_STACKS] != []
    modifies k.pool, k.pool.nodes, k.pool.queues, k.pcbs, k`nextPid
    ensures k.Valid() && pcb == old(k.View()).q[FREE_PCBS][0] && k.View() == NewProc(old(k.View()), level)
  {
    hide NewProc, Kernel.Wired, NodesInUse;
    NewProcView(k.View(), level);
    var free := k.PcbAlloc();
    var stack := k.StackAlloc();
    pcb := free.data;
    var pid := k.MakeProc(pcb, stack.data, level);
  }

  lemma LoadingChain()
    ensures Creatable(Pristine()) && Creatable(Create(Pristine(), LEVEL_LOW))
    ensures Creatable(Create(Create(Pristine(), LEVEL_LOW), LEVEL_DEFAULT))
    ensures Create(Create(Create(Pristine(), LEVEL_LOW), LEVEL_DEFAULT), LEVEL_DEFAULT) == Loaded()
  {
    hide Create, Pristine;
    LoadingSteps();
  }

  lemma LoadedRoom()
    ensures NodesInUse(Loaded()) + LineLength(Loaded()) <= NODE_COUNT && Dispatch(Loaded()) == Boot() != Panic
  {
    NodesSuffice(Loaded(), {});
  }

  /** The module initialisations of _init. */
  method InitModules(k: Kernel)
    requires k.Valid() && k.View() == Bare()
    modifies k.pool, k.pool.nodes, k.pool.queues, k.pcbs
    ensures k.Valid() && k.View() == Pristine()
  {
    hide Kernel.Wired, NodesInUse, Filled, Pristine, Bare;
    FilledEnds();
    PcbInit(k);
    StackInit(k);
    ShmInit(k);
  }

  /** The creations of the idle process, the first user process and the disk test, in that order. */
  method CreateProcesses(k: Kernel)
    requires k.Valid() && k.View() == Pristine()
    modifies k.pool, k.pool.nodes, k.pool.queues, k.pcbs, k`nextPid
    ensures k.Valid() && k.View() == Loaded()
  {
    hide Kernel.Wired, Creatable, NodesInUse, Pristine, Create, Loaded;
    LoadingChain();
    CreateProcess(k, LEVEL_LOW);
    CreateProcess(k, LEVEL_DEFAULT);
    CreateProcess(k, LEVEL_DEFAULT);
  }

  /** _init, as far as it concerns processes: it leads to the state from which every run starts. */
  method Start(k: Kernel)
    requires k.Valid() && !k.panicked && k.View() == Bare()
    modifies k.pool, k.pool.nodes, k.pool.queues, k.pcbs, k`nextPid, k`current, k`panicked
    ensures k.Valid() && !k.panicked && KernelModel.Dispatch(Loaded()) == Ok(k.View())
  {
    hide *;
    LoadedRoom();
    InitModules(k);
    CreateProcesses(k);
    k.Dispatch();
  }

  /** From power-up to the first user process. */
  method Init() returns (k: Kernel)
    ensures fresh(k) && fresh(k.pool) && fresh(k.pool.nodes) && fresh(k.pool.queues) && fresh(k.pcbs)
    ensures fresh(k.serial) && fresh(k.serial.inbuffer) && fresh(k.serial.outbuffer)
    ensures Sound(k) && Boot() == Ok(k.View())
  {
    hide Kernel.Wired, NodesInUse, Bare, Boot, Inv, IdleSafe;
    LoadedRoom();
    k := Kernel.PowerUp();
    Start(k);
  }

  // -------- System call entry --------

  /** What a process asks for with `code` in EAX and two arguments; a bad code means exit. */
  function Requested(code: nat, first: nat, second: nat): (e: Event)
    requires !(ShmCode(code))
  {
    match code
    case 0 => Event.Spawn(LEVEL_DEFAULT)
    case 1 => Event.Spawn(second)
    case 2 => Event.Sleep(first)
    case 4 => Event.Kill(first)
    case 5 => Event.Read
    case 6 => Event.Write(first)
    case 7 => Event.Time
    case 8 => Event.GetPid
    case 9 => Event.GetPpid
    case 10 => Event.GetPidList(second)
    case _ => Event.Exit
  }

  /** The shared-memory calls, which are not decoded here. */
  predicate ShmCode(code: nat) {
    11 <= code < 17
  }

  /** What _sys_getpidlist leaves in a buffer with `size` places. */
  function Clipped(pids: seq<nat>, size: nat): (buf: seq<nat>)
    ensures buf <= pids && |buf| <= size && (|buf| < size ==> buf == pids)
  {
    if size < |pids| then pids[..size] else pids
  }

  /** _isr_syscall; `ok` is false when a written byte falls outside the output buffer. */
  method IsrSyscall(k: Kernel, code: nat, first: nat, second: nat) returns (ok: bool, pids: seq<nat>)
    requires k.Valid() && !k.panicked && Inv(k.View()) && !ShmCode(code)
    modifies k, k.pool, k.pool.nodes, k.pool.queues, k.pcbs, k.serial, k.serial.outbuffer
    ensures k.Valid() && (ok <==> Step(old(k.View()), Requested(code, first, second)) != Overrun)
    ensures ok ==> k.Shows(Step(old(k.View()), Requested(code, first, second)))
    ensures code == 10 ==> pids == Clipped(ActivePids(old(k.View()).pcbs, MAX_PROCS), second)
  {
    hide Kernel.Wired, Inv, NodesInUse, LineLength, Tock, ReceiveByte, Take, Put, SetEax, ActivePids;
    hide SpawnCall, SleepCall, ExitCall, KillCall, ReadCall;
    ok, pids := true, [];
    match code
    case 0 => k.Spawn(LEVEL_DEFAULT);
    case 1 => k.Spawn(second % 256);
    case 2 => k.Sleep(first % HALF);
    case 4 => k.Kill(first % HALF);
    case 5 => k.Read();
    case 6 => ok := k.Write(first);
    case 7 => k.Time();
    case 8 => k.GetPid();
    case 9 => k.GetPpid();
    case 10 => pids := k.GetPidList(second);
    case _ => k.Exit();
  }

  /** The event of an allocation; the segment is the first one in the pool. */
  method ShmAlloc(k: Kernel) returns (segment: Removed)
    requires k.Valid()
    modifies k.pool, k.pool.nodes, k.pool.queues
    ensures k.Valid() && Step(old(k.View()), Event.ShmAlloc) == Ok(k.View())
    ensures var pool := old(k.View()).q[FREE_SHMS]; segment == if pool == [] then Null else Item(pool[0])
  {
    hide Kernel.Wired, NodesInUse;
    segment := k.ShmAlloc();
  }

  /** The event of a release. */
  method ShmFree(k: Kernel, segment: Id)
    requires k.Valid() && Inv(k.View())
    modifies k.pool, k.pool.nodes, k.pool.queues
    ensures k.Valid() && Step(old(k.View()), Event.ShmFree(segment)) == Ok(k.View())
  {
    hide Kernel.Wired, Inv, NodesInUse;
    InvRoom(k.View());
    var stat := k.ShmDealloc(segment);
  }

  // -------- Whatever comes next --------

  /** A kernel between two interrupts. */
  ghost predicate Sound(k: Kernel)
    reads k, k.Repr
  {
    k.Valid() && !k.panicked && Inv(k.View()) && IdleSafe(k.View())
  }

  /** What the hardware can interrupt the kernel with. */
  datatype Signal = Timer | TransmitterEmpty | Received(byte: nat) | Trap(code: nat, first: nat, second: nat)

  /** The event of the model that a signal stands for. */
  function Raised(i: Signal): Event
    requires i.Trap? ==> !ShmCode(i.code)
  {
    match i
    case Timer => Tick
    case TransmitterEmpty => TransmitReady
    case Received(byte) => Receive(byte)
    case Trap(code, first, second) => Requested(code, first, second)
  }

  /** The handler that was installed for the signal's vector. */
  method Interrupt(k: Kernel, i: Signal) returns (ok: bool)
    requires k.Valid() && !k.panicked && Inv(k.View()) && (i.Trap? ==> !ShmCode(i.code))
    modifies k, k.pool, k.pool.nodes, k.pool.queues, k.pcbs, k.serial, k.serial.inbuffer, k.serial.outbuffer
    ensures k.Valid() && (ok <==> Step(old(k.View()), Raised(i)) != Overrun)
    ensures ok ==> k.Shows(Step(old(k.View()), Raised(i)))
  {
    hide Kernel.Wired, Inv, NodesInUse, LineLength, Tock, Take, Put, SpawnCall, SleepCall, ExitCall, KillCall, ReadCall;
    ok := true;
    match i
    case Timer => k.IsrClock();
    case TransmitterEmpty => k.IsrTransmit();
    case Received(byte) => ok := k.IsrReceive(byte);
    case Trap(code, first, second) => var pids; ok, pids := IsrSyscall(k, code, first, second);
  }

  /** Every lawful signal leaves the kernel sound, in the state that the model's step gives. */
  method LawfulInterrupt(k: Kernel, i: Signal)
    requires Sound(k) && (i.Trap? ==> !ShmCode(i.code)) && Lawful(k.View(), Raised(i))
    modifies k, k.pool, k.pool.nodes, k.pool.queues, k.pcbs, k.serial, k.serial.inbuffer, k.serial.outbuffer
    ensures Sound(k) && Step(old(k.View()), Raised(i)) == Ok(k.View())
  {
    hide Kernel.Wired, Inv, NodesInUse, Step, IdleSafe, Lawful, Raised;
    LawfulStep(k.View(), Raised(i));
    var ok := Interrupt(k, i);
  }

  /** The events of the model that a sequence of signals stands for. */
  ghost function EventsOf(signals: seq<Signal>): (es: seq<Event>)
    requires NoShm(signals)
    ensures |es| == |signals|
  {
    if signals == [] then [] else [Raised(signals[0])] + EventsOf(signals[1..])
  }

  ghost predicate NoShm(signals: seq<Signal>) {
    forall i :: 0 <= i < |signals| && signals[i].Trap? ==> !ShmCode(signals[i].code)
  }

  /** What is left of a run after its next signal. */
  lemma NextSignal(s: State, signals: seq<Signal>, n: nat)
    requires NoShm(signals) && n < |signals| && Inv(s) && IdleSafe(s) && LawfulRun(s, EventsOf(signals[n..]))
    ensures var e := Raised(signals[n]);
            && Lawful(s, e) && Step(s, e).Ok?
            && var t := Step(s, e).state;
            && LawfulRun(t, EventsOf(signals[n + 1..]))
            && Run(t, EventsOf(signals[n + 1..])) == Run(s, EventsOf(signals[n..]))
  {
    hide Placed, StatusAgrees, StacksOwned, SleepersKeyed, ShmsSingle, IdleSafe, Lawful, Step;
    var e, es := Raised(signals[n]), EventsOf(signals[n..]);
    assert signals[n..][1..] == signals[n + 1..];
    assert es[0] == e && es[1..] == EventsOf(signals[n + 1..]);
    assert Lawful(s, e);
    LawfulStep(s, e);
    RunUnfold(s, es);
  }

  /** Whole runs on the heap: the kernel from _init, under any lawful signals, is where the model's run is. */
  method Session(signals: seq<Signal>) returns (k: Kernel)
    requires NoShm(signals) && LawfulRun(Boot().state, EventsOf(signals))
    ensures Sound(k) && Run(Boot().state, EventsOf(signals)) == Ok(k.View())
  {
    hide Kernel.Wired, NodesInUse, Inv, IdleSafe, Lawful, LawfulRun, Run, Step, Boot, Raised;
    k := Init();
    ghost var end := Run(Boot().state, EventsOf(signals));
    assert signals[0..] == signals;
    var n := 0;
    while n < |signals|
      invariant fresh(k) && fresh(k.pool) && fresh(k.pool.nodes) && fresh(k.pool.queues) && fresh(k.pcbs)
      invariant fresh(k.serial) && fresh(k.serial.inbuffer) && fresh(k.serial.outbuffer)
      invariant n <= |signals| && Sound(k)
      invariant LawfulRun(k.View(), EventsOf(signals[n..])) && Run(k.View(), EventsOf(signals[n..])) == end
    {
      NextSignal(k.View(), signals, n);
      LawfulInterrupt(k, signals[n]);
      n := n + 1;
    }
    RunEnds(k.View());
    assert signals[n..] == [];
  }

  lemma RunEnds(s: State)
    requires Shape(s)
    ensures Run(s, []) == Ok(s) && EventsOf([]) == []
  {
  }
}
