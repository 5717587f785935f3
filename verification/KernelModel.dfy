/** The serial port as values: what is buffered each way, and how far the linear buffers have filled. */
module SerialModel {

  const BUF_SIZE: nat := 1024
  const CR: nat := 13
  const LF: nat := 10

  /** `stored` and `queued` count the bytes put in each linear buffer since its pointers were last reset. */
  datatype Sio = Sio(input: seq<nat>, stored: nat, output: seq<nat>, queued: nat, sending: bool, txd: seq<nat>)

  /** A store past the end of a buffer has no defined effect, so it ends the model. */
  datatype SioOutcome = Fine(sio: Sio) | Overflow

  function MapCR(byte: nat): nat {
    if byte == CR then LF else byte
  }

  function Store(io: Sio, ch: nat): SioOutcome {
    if |io.input| >= BUF_SIZE then Fine(io)
    else if io.stored >= BUF_SIZE then Overflow
    else Fine(io.(input := io.input + [ch], stored := io.stored + 1))
  }

  function Fetch(io: Sio): Sio
    requires io.input != []
  {
    io.(input := io.input[1..], stored := if |io.input| == 1 then 0 else io.stored)
  }

  function Transmit(io: Sio): Sio {
    if io.sending && io.output != [] then
      io.(txd := io.txd + [io.output[0]], output := io.output[1..])
    else
      io.(output := [], queued := 0, sending := false)
  }

  function PutByte(io: Sio, byte: nat): SioOutcome {
    if !io.sending then Fine(io.(sending := true, txd := io.txd + [byte]))
    else if io.queued >= BUF_SIZE then Overflow
    else Fine(io.(output := io.output + [byte], queued := io.queued + 1))
  }

  function Write(io: Sio, ch: nat): SioOutcome {
    if ch == LF then
      match PutByte(io, CR)
      case Fine(io') => PutByte(io', LF)
      case Overflow => Overflow
    else PutByte(io, ch % 256)
  }
}

/** The kernel as a state machine over values: one step per clock tick, system call or UART event. */
module KernelModel {
  import opened SerialModel
  import opened QueuePool

  const MLQ_LEVELS: nat := 3
  const LEVEL_DEFAULT: nat := 1
  const LEVEL_LOW: nat := 2
  const QUANTUM_DEFAULT: nat := 2

  const WORD: nat := 0x1_0000_0000
  const HALF: nat := 0x1_0000
  const MINUS_ONE: nat := 0xFFFF_FFFF

  type Positive = n: nat | n > 0 witness 1

  /** Clock ticks in a second; its value is set outside the files modelled here. */
  const TICKS_PER_SECOND: Positive

  type Pid = n: nat | n < HALF

  // The eight queues; ready level l is queue l.
  const SLEEPING: nat := 3
  const READING: nat := 4
  const FREE_PCBS: nat := 5
  const FREE_STACKS: nat := 6
  const FREE_SHMS: nat := 7
  const QUEUES: nat := 8

  datatype ProcStatus = Free | New | Ready | Running | Zombie | Sleeping | Blocked
  {
    function Code(): nat {
      match this
      case Free => 0
      case New => 1
      case Ready => 2
      case Running => 3
      case Zombie => 4
      case Sleeping => 5
      case Blocked => 6
    }

    predicate Active() {
      Code() > New.Code()
    }
  }

  datatype Stack = NoStack | StackAt(index: Id)

  datatype Pcb = Pcb(
    status: ProcStatus, pid: nat, ppid: nat, level: nat, quantum: nat,
    wakeup: nat, stack: Stack, eax: nat)

  const CLEAR_PCB := Pcb(Free, 0, 0, 0, 0, 0, NoStack, 0)

  /** `leaked` remembers the PCBs that a spawn at a bad level takes out of circulation. */
  datatype State = State(
    pcbs: seq<Pcb>,
    current: Id,
    q: seq<seq<Id>>,
    keys: seq<nat>,  // the key stored beside each sleeper
    now: nat,
    nextPid: Pid,
    leaked: seq<Id>,
    io: Sio)

  datatype Outcome = Ok(state: State) | Panic | Overrun

  datatype Event =
    | Tick
    | TransmitReady
    | Receive(ch: nat)
    | Spawn(level: nat)
    | Sleep(num: nat)
    | Exit
    | Kill(pid: nat)
    | Read
    | Write(ch: nat)
    | Time
    | GetPid
    | GetPpid
    | GetPidList(size: nat)
    | ShmAlloc
    | ShmFree(segment: Id)

  ghost predicate Shape(s: State) {
    |s.pcbs| == MAX_PROCS && |s.q| == QUEUES && |s.keys| == |s.q[SLEEPING]|
  }

  // -------- Queue primitives --------

  ghost function Take(s: State, i: nat): (r: State)
    requires Shape(s) && i < QUEUES && s.q[i] != []
    ensures Shape(r)
  {
    s.(q := s.q[i := s.q[i][1..]], keys := if i == SLEEPING then s.keys[1..] else s.keys)
  }

  ghost function Put(s: State, i: nat, x: Id): (r: State)
    requires Shape(s) && i < QUEUES && i != SLEEPING
    ensures Shape(r)
  {
    s.(q := s.q[i := s.q[i] + [x]])
  }

  ghost function PutSleeping(s: State, x: Id): (r: State)
    requires Shape(s)
    ensures Shape(r)
  {
    var key := s.pcbs[x].wakeup;
    var k := Rank(s.keys, key);
    s.(q := s.q[SLEEPING := InsertAt(s.q[SLEEPING], k, x)], keys := InsertAt(s.keys, k, key))
  }

  ghost function SetPcb(s: State, x: Id, pcb: Pcb): (r: State)
    requires Shape(s)
    ensures Shape(r)
  {
    s.(pcbs := s.pcbs[x := pcb])
  }

  ghost function SetStatus(s: State, x: Id, status: ProcStatus): (r: State)
    requires Shape(s)
    ensures Shape(r)
  {
    SetPcb(s, x, s.pcbs[x].(status := status))
  }

  ghost function SetEax(s: State, x: Id, eax: nat): (r: State)
    requires Shape(s)
    ensures Shape(r)
  {
    SetPcb(s, x, s.pcbs[x].(eax := eax))
  }

  // -------- Scheduler --------

  ghost function Schedule(s: State, x: Id): (r: State)
    requires Shape(s)
    ensures Shape(r)
  {
    var level := s.pcbs[x].level;
    if level >= MLQ_LEVELS then s else Put(SetStatus(s, x, Ready), level, x)
  }

  ghost function Cleanup(s: State, x: Id): (r: State)
    requires Shape(s)
    ensures Shape(r)
  {
    var s1 := if s.pcbs[x].stack.StackAt? then Put(s, FREE_STACKS, s.pcbs[x].stack.index) else s;
    Put(SetStatus(s1, x, Free), FREE_PCBS, x)
  }

  ghost function GiveCpu(s: State, x: Id): (r: State)
    requires Shape(s)
    ensures Shape(r)
  {
    SetPcb(s, x, s.pcbs[x].(status := Running, quantum := QUANTUM_DEFAULT)).(current := x)
  }

  ghost function DispatchFrom(s: State, level: nat): (r: Outcome)
    requires Shape(s)
    ensures r.Ok? ==> Shape(r.state)
    decreases MLQ_LEVELS - level, if level < MLQ_LEVELS then |s.q[level]| else 0
  {
    if level >= MLQ_LEVELS then Panic
    else if s.q[level] == [] then DispatchFrom(s, level + 1)
    else
      var x := s.q[level][0];
      var s1 := Take(s, level);
      match s.pcbs[x].status
      case Ready => Ok(GiveCpu(s1, x))
      case Zombie => DispatchFrom(Cleanup(s1, x), level)
      case _ => Panic
  }

  ghost function Dispatch(s: State): (r: Outcome)
    requires Shape(s)
    ensures r.Ok? ==> Shape(r.state)
  {
    DispatchFrom(s, 0)
  }

  // -------- Clock --------

  ghost function Wake(s: State): (r: State)
    requires Shape(s)
    ensures Shape(r) && r.now == s.now && r.current == s.current
    decreases |s.q[SLEEPING]|
  {
    if s.keys == [] || s.keys[0] > s.now then s
    else Wake(Schedule(Take(s, SLEEPING), s.q[SLEEPING][0]))
  }

  /** The 32-bit clock wraps to 0. */
  function NextTime(s: State): (now: nat)
    ensures now < WORD
  {
    if s.now + 1 < WORD then s.now + 1 else 0
  }

  /** The second half of the clock handler: quantum and preemption. */
  ghost function Quantum(s: State): (r: Outcome)
    requires Shape(s)
    ensures r.Ok? ==> Shape(r.state)
  {
    var pcb := s.pcbs[s.current];
    if pcb.quantum == 0 then Dispatch(Schedule(s, s.current))
    else Ok(SetPcb(s, s.current, pcb.(quantum := pcb.quantum - 1)))
  }

  ghost function Tock(s: State): (r: Outcome)
    requires Shape(s)
    ensures r.Ok? ==> Shape(r.state)
  {
    Quantum(Wake(s.(now := NextTime(s))))
  }

  // -------- System calls --------

  ghost function NewProc(s: State, level: nat): (r: State)
    requires Shape(s) && s.q[FREE_PCBS] != [] && s.q[FREE_STACKS] != []
    ensures Shape(r)
  {
    var x, k := s.q[FREE_PCBS][0], s.q[FREE_STACKS][0];
    SetPcb(Take(Take(s, FREE_PCBS), FREE_STACKS), x,
           CLEAR_PCB.(pid := s.nextPid, level := level, stack := StackAt(k)))
    .(nextPid := (s.nextPid + 1) % HALF)
  }

  /** A process whose level is bad stays off every queue when the kernel tries to schedule it. */
  ghost function Admit(s: State, x: Id): (r: State)
    requires Shape(s)
    ensures Shape(r)
  {
    if s.pcbs[x].level >= MLQ_LEVELS then s.(leaked := s.leaked + [x]) else Schedule(s, x)
  }

  /** The new process of _spawn, filled in but not yet scheduled. */
  ghost function Child(s: State, level: nat): (r: State)
    requires Shape(s) && s.q[FREE_PCBS] != [] && s.q[FREE_STACKS] != []
    ensures Shape(r)
  {
    var x := s.q[FREE_PCBS][0];
    var s1 := NewProc(s, level);
    var s2 := SetEax(s1, s1.current, s1.pcbs[x].pid);
    SetPcb(s2, x, s2.pcbs[x].(ppid := s2.pcbs[s2.current].pid))
  }

  ghost function SpawnCall(s: State, level: nat): (r: Outcome)
    requires Shape(s)
    ensures r.Ok? ==> Shape(r.state)
  {
    if s.q[FREE_PCBS] == [] then Ok(SetEax(s, s.current, MINUS_ONE))
    else if s.q[FREE_STACKS] == [] then
      var x := s.q[FREE_PCBS][0];
      Ok(SetEax(Put(SetStatus(Take(s, FREE_PCBS), x, Free), FREE_PCBS, x), s.current, MINUS_ONE))
    else
      Dispatch(Schedule(Admit(Child(s, level), s.q[FREE_PCBS][0]), s.current))
  }

  function WakeTime(s: State, num: nat): (wakeup: nat)
    ensures wakeup < WORD
  {
    (s.now + num * TICKS_PER_SECOND) % WORD
  }

  /** The current process on the sleep queue, just before _sys_sleep dispatches. */
  ghost function Dozing(s: State, wakeup: nat): (r: State)
    requires Shape(s)
    ensures Shape(r)
  {
    PutSleeping(SetPcb(s, s.current, s.pcbs[s.current].(wakeup := wakeup, status := Sleeping)), s.current)
  }

  ghost function SleepCall(s: State, num: nat): (r: Outcome)
    requires Shape(s)
    ensures r.Ok? ==> Shape(r.state)
  {
    if num == 0 then Dispatch(Schedule(s, s.current))
    else Dispatch(Dozing(s, WakeTime(s, num)))
  }

  ghost function ExitCall(s: State): (r: Outcome)
    requires Shape(s)
    ensures r.Ok? ==> Shape(r.state)
  {
    Dispatch(Cleanup(s, s.current))
  }

  /** The first table entry from `x` on that is active and has this pid; |pcbs| if there is none. */
  ghost function Find(pcbs: seq<Pcb>, pid: nat, x: nat): (r: nat)
    requires x <= |pcbs|
    ensures x <= r <= |pcbs|
    ensures r < |pcbs| ==> pcbs[r].pid == pid && pcbs[r].status.Active()
    ensures forall y :: x <= y < r ==> !(pcbs[y].pid == pid && pcbs[y].status.Active())
    decreases |pcbs| - x
  {
    if x == |pcbs| || (pcbs[x].pid == pid && pcbs[x].status.Active()) then x else Find(pcbs, pid, x + 1)
  }

  ghost function KillCall(s: State, pid: nat): (r: Outcome)
    requires Shape(s)
    ensures r.Ok? ==> Shape(r.state)
  {
    var s1 := SetEax(s, s.current, MINUS_ONE);
    if pid == 0 then Ok(s1)
    else if pid == s.pcbs[s.current].pid then ExitCall(s1)
    else
      var x := Find(s.pcbs, pid, 0);
      if x == MAX_PROCS then Ok(s1)
      else Ok(SetStatus(SetEax(s1, s.current, s.pcbs[x].status.Code()), x, Zombie))
  }

  ghost function ReadCall(s: State): (r: Outcome)
    requires Shape(s)
    ensures r.Ok? ==> Shape(r.state)
  {
    if s.io.input != [] then
      Ok(SetEax(s.(io := Fetch(s.io)), s.current, s.io.input[0]))
    else
      Dispatch(Put(SetStatus(s, s.current, Blocked), READING, s.current))
  }

  ghost function WriteCall(s: State, ch: nat): (r: Outcome)
    requires Shape(s)
    ensures r.Ok? ==> Shape(r.state)
  {
    match SerialModel.Write(s.io, ch)
    case Fine(io) => Ok(s.(io := io))
    case Overflow => Overrun
  }

  /** The pids of the active processes among the first `n` table entries, in table order. */
  ghost function ActivePids(pcbs: seq<Pcb>, n: nat): (pids: seq<nat>)
    requires n <= |pcbs|
    ensures |pids| <= n
  {
    if n == 0 then []
    else if pcbs[n - 1].status.Active() then ActivePids(pcbs, n - 1) + [pcbs[n - 1].pid]
    else ActivePids(pcbs, n - 1)
  }

  // -------- UART input --------

  ghost function ReceiveByte(s: State, ch: nat): (r: Outcome)
    requires Shape(s)
    ensures r.Ok? ==> Shape(r.state)
  {
    var c := MapCR(ch % 256);
    if s.q[READING] != [] then
      var x := s.q[READING][0];
      Ok(Schedule(SetEax(Take(s, READING), x, c), x))
    else
      match Store(s.io, c)
      case Fine(io) => Ok(s.(io := io))
      case Overflow => Overrun
  }

  // -------- One step --------

  ghost function Step(s: State, e: Event): (r: Outcome)
    requires Shape(s)
    ensures r.Ok? ==> Shape(r.state)
  {
    match e
    case Tick => Tock(s)
    case TransmitReady => Ok(s.(io := Transmit(s.io)))
    case Receive(ch) => ReceiveByte(s, ch)
    case Spawn(level) => SpawnCall(s, level % 256)
    case Sleep(num) => SleepCall(s, num % HALF)
    case Exit => ExitCall(s)
    case Kill(pid) => KillCall(s, pid % HALF)
    case Read => ReadCall(s)
    case Write(ch) => WriteCall(s, ch)
    case Time => Ok(SetEax(s, s.current, s.now / TICKS_PER_SECOND))
    case GetPid => Ok(SetEax(s, s.current, s.pcbs[s.current].pid))
    case GetPpid => Ok(SetEax(s, s.current, s.pcbs[s.current].ppid))
    case GetPidList(size) => Ok(SetEax(s, s.current, |ActivePids(s.pcbs, MAX_PROCS)|))
    case ShmAlloc => if s.q[FREE_SHMS] == [] then Ok(s) else Ok(Take(s, FREE_SHMS))
    case ShmFree(segment) => Ok(Put(s, FREE_SHMS, segment))
  }
}
