/** The process kernel itself: PCB table, queues and handlers, each proved equal to a step of the model. */
module ProcessKernel {
  import opened QueuePool
  import opened SerialModel
  import opened KernelModel
  import opened SerialDriver
  import opened Ownership
  import opened Dispatching
  import opened Safety
  import opened Runs
  import opened Spawning

  ghost function Bare(): State {
    State(seq(MAX_PROCS, _ => CLEAR_PCB), 0, [[], [], [], [], [], [], [], []], [], 0, 0, [], EMPTY_SIO)
  }

  lemma NothingQueued(q: seq<seq<Id>>)
    requires |q| == QUEUES && forall i :: 0 <= i < QUEUES ==> q[i] == []
    ensures q == Bare().q && NodesInUse(Bare()) == 0
  {
  }

  /** The model's insertion, recognised from its effect on each queue. */
  lemma InsertedView(s: State, r: State, i: nat, x: Id, key: nat)
    requires Shape(s) && Shape(r) && i < QUEUES && r == s.(q := r.q, keys := r.keys)
    requires forall j :: 0 <= j < QUEUES && j != i ==> r.q[j] == s.q[j]
    requires i != SLEEPING ==> r.keys == s.keys && r.q[i] == InsertAt(s.q[i], |s.q[i]|, x)
    requires i == SLEEPING ==>
               && key == s.pcbs[x].wakeup
               && r.q[i] == InsertAt(s.q[i], Rank(s.keys, key), x) && r.keys == InsertAt(s.keys, Rank(s.keys, key), key)
    ensures r == if i == SLEEPING then PutSleeping(s, x) else Put(s, i, x)
    ensures NodesInUse(r) == NodesInUse(s) + 1
  {
    if i != SLEEPING {
      assert r.q[i] == s.q[i] + [x];
      assert r.q == s.q[i := s.q[i] + [x]];
    } else {
      assert r.q == s.q[i := r.q[i]];
    }
  }

  lemma SpotIs(ordered: bool, keys: seq<nat>, hash: nat)
    ensures Spot(ordered, keys, hash) == if ordered then Rank(keys, hash) else |keys|
  {
  }

  lemma NextSum(qs: seq<Queue>, i: nat)
    requires i < |qs|
    ensures SumLengths(qs[i..]) == |qs[i].chain| + SumLengths(qs[i + 1..])
  {
    assert qs[i..][1..] == qs[i + 1..];
  }

  lemma NodesAlike(s: State, t: State)
    requires Shape(s) && Shape(t) && s.q == t.q
    ensures NodesInUse(s) == NodesInUse(t)
  {
  }

  lemma RemovedView(s: State, r: State, i: nat)
    requires Shape(s) && Shape(r) && i < QUEUES && r == s.(q := r.q, keys := r.keys) && s.q[i] != []
    requires forall j :: 0 <= j < QUEUES && j != i ==> r.q[j] == s.q[j]
    requires r.q[i] == s.q[i][1..] && r.keys == if i == SLEEPING then s.keys[1..] else s.keys
    ensures r == Take(s, i) && NodesInUse(r) + 1 == NodesInUse(s)
  {
    assert r.q == s.q[i := r.q[i]];
  }

  // -------- The loop of _dispatch, on values --------

  /** One turn on a non-empty queue; `sane` is false in the branch that panics. */
  ghost predicate Examined(s: State, level: nat, r: State, pcb: Removed, sane: bool)
    requires Shape(s) && Shape(r) && level < MLQ_LEVELS && s.q[level] != []
  {
    var x := s.q[level][0];
    match s.pcbs[x].status
    case Ready => sane && pcb == Item(x) && r == Take(s, level)
    case Zombie => sane && pcb == Null && r == Cleanup(Take(s, level), x)
    case _ => !sane && pcb == Null
  }

  /** What is left to do from `s` amounts to a dispatch of `s0`. */
  ghost predicate Underway(s0: State, s: State, level: nat, pcb: Removed, sane: bool)
    requires Shape(s0) && Shape(s)
  {
    match pcb
    case Item(x) => Dispatch(s0) == Ok(GiveCpu(s, x))
    case Null =>
      if sane then
        NodesInUse(s) + LineLength(s) <= NODE_COUNT && DispatchFrom(s, level) == Dispatch(s0)
      else Dispatch(s0) == Panic
  }

  lemma UnderwaySkip(s0: State, s: State, level: nat)
    requires Shape(s0) && Shape(s) && Underway(s0, s, level, Null, true) && level < MLQ_LEVELS && s.q[level] == []
    ensures Underway(s0, s, level + 1, Null, true)
  {
  }

  lemma UnderwayTurn(s0: State, s: State, level: nat, r: State, pcb: Removed, sane: bool)
    requires Shape(s0) && Shape(s) && Shape(r) && Underway(s0, s, level, Null, true)
    requires level < MLQ_LEVELS && s.q[level] != [] && Examined(s, level, r, pcb, sane)
    ensures Underway(s0, r, level, pcb, sane)
    ensures pcb.Null? && sane ==> |r.q[level]| < |s.q[level]|
  {
  }

  lemma UnderwayEnd(s0: State, s: State)
    requires Shape(s0) && Shape(s) && Underway(s0, s, MLQ_LEVELS, Null, true)
    ensures Dispatch(s0) == Panic
  {
  }

  lemma TakeRoom(s: State, level: nat)
    requires Shape(s) && level < MLQ_LEVELS && s.q[level] != []
    requires NodesInUse(s) + LineLength(s) <= NODE_COUNT
    ensures NodesInUse(Take(s, level)) + 2 <= NODE_COUNT
  {
  }

  // -------- Handlers, on values --------

  /** Room for the insertions of a handler, and for the dispatch that follows. */
  lemma InvRoom(s: State)
    requires Inv(s)
    ensures NodesInUse(s) + LineLength(s) + 6 <= NODE_COUNT
  {
    NodesSuffice(s, {s.current});
  }

  lemma YieldRoom(s: State)
    requires Inv(s)
    ensures var t := KernelModel.Schedule(s, s.current);
            NodesInUse(s) < NODE_COUNT && NodesInUse(t) + LineLength(t) <= NODE_COUNT
  {
    NodesSuffice(s, {s.current});
  }

  lemma LeaveRoom(s: State)
    requires Inv(s)
    ensures var t := Cleanup(s, s.current);
            NodesInUse(s) + 2 <= NODE_COUNT && NodesInUse(t) + LineLength(t) <= NODE_COUNT
    ensures var t := Put(SetStatus(s, s.current, Blocked), READING, s.current);
            NodesInUse(t) + LineLength(t) <= NODE_COUNT
  {
    NodesSuffice(s, {s.current});
  }

  lemma DozeRoom(s: State, wakeup: nat)
    requires Inv(s)
    ensures var t := Dozing(s, wakeup); NodesInUse(s) < NODE_COUNT && NodesInUse(t) + LineLength(t) <= NODE_COUNT
  {
    NodesSuffice(s, {s.current});
  }

  lemma NewProcView(s: State, level: nat)
    requires Shape(s) && s.q[FREE_PCBS] != [] && s.q[FREE_STACKS] != []
    ensures var x, k := s.q[FREE_PCBS][0], s.q[FREE_STACKS][0];
            var a := Take(SetStatus(Take(s, FREE_PCBS), x, New), FREE_STACKS);
            NewProc(s, level) == SetPcb(a, x, CLEAR_PCB.(pid := s.nextPid, level := level, stack := StackAt(k)))
                                 .(nextPid := (s.nextPid + 1) % HALF)
  {
  }

  /** The two ways in which _spawn gives up. */
  lemma SpawnGivesUp(s: State, level: nat)
    requires Shape(s)
    ensures s.q[FREE_PCBS] == [] ==> SpawnCall(s, level) == Ok(SetEax(s, s.current, MINUS_ONE))
    ensures s.q[FREE_PCBS] != [] && s.q[FREE_STACKS] == [] ==>
              var x := s.q[FREE_PCBS][0];
              SpawnCall(s, level) ==
              Ok(SetEax(Put(SetStatus(Take(s, FREE_PCBS), x, Free), FREE_PCBS, x), s.current, MINUS_ONE))
  {
  }

  lemma AllocRoom(s: State)
    requires Inv(s) && s.q[FREE_PCBS] != []
    ensures NodesInUse(SetStatus(Take(s, FREE_PCBS), s.q[FREE_PCBS][0], New)) < NODE_COUNT
  {
    NodesSuffice(s, {s.current});
  }

  /** The nodes that _spawn needs after its two allocations. */
  lemma SpawnRoom(s: State, level: nat)
    requires Inv(s) && s.q[FREE_PCBS] != []
    ensures s.q[FREE_STACKS] != []
    ensures var u := Child(s, level);
            && u.current == s.current && Admit(u, s.q[FREE_PCBS][0]).current == s.current
            && NodesInUse(u) < NODE_COUNT && NodesInUse(Admit(u, s.q[FREE_PCBS][0])) < NODE_COUNT
            && NodesInUse(Lined(s, level)) + LineLength(Lined(s, level)) <= NODE_COUNT
  {
    ChildCore(s, level);
    var u, x := Child(s, level), s.q[FREE_PCBS][0];
    NodesSuffice(u, {s.current} + {x});
    AdmitCore(u, s.current, x);
    NodesSuffice(Admit(u, x), {s.current});
    LinedCore(s, level);
    NodesSuffice(Lined(s, level), {});
  }

  lemma FindIs(pcbs: seq<Pcb>, pid: nat, x: nat)
    requires x <= |pcbs|
    requires forall y :: 0 <= y < x ==> !(pcbs[y].pid == pid && pcbs[y].status.Active())
    requires x < |pcbs| ==> pcbs[x].pid == pid && pcbs[x].status.Active()
    ensures Find(pcbs, pid, 0) == x
  {
  }

  /** Marking a process killed while the caller gets its old status. */
  lemma MarkTwice(s: State, x: Id, code: nat)
    requires Shape(s)
    ensures SetEax(SetEax(s, s.current, MINUS_ONE), s.current, code) == SetEax(s, s.current, code)
  {
  }

  lemma LeaveAnswered(s: State)
    requires Inv(s)
    ensures Inv(SetEax(s, s.current, MINUS_ONE))
  {
    EaxInv(s, MINUS_ONE);
  }

  lemma SearchUnmoved(s: State, t: State, pid: nat)
    requires Shape(s) && Shape(t) && t == SetEax(s, s.current, MINUS_ONE)
    ensures Find(s.pcbs, pid, 0) == Find(t.pcbs, pid, 0)
  {
    assert forall y :: 0 <= y < MAX_PROCS ==> t.pcbs[y].pid == s.pcbs[y].pid && t.pcbs[y].status == s.pcbs[y].status;
    FindIs(s.pcbs, pid, Find(t.pcbs, pid, 0));
  }

  /** The outcome of a receive event in which nobody waits. */
  lemma ReceiveBuffers(s: State, byte: nat)
    requires Shape(s) && s.q[READING] == []
    ensures ReceiveByte(s, byte) ==
            match Store(s.io, if byte % 256 == CR then LF else byte % 256)
            case Fine(io) => Ok(s.(io := io))
            case Overflow => Overrun
  {
  }

  /** One turn of the wake loop: enough nodes, and the rest of the loop still to do. */
  lemma WakeStep(s: State)
    requires Core(s, {s.current})
    ensures s.keys == [] || s.keys[0] > s.now ==> Wake(s) == s
    ensures s.keys != [] && s.keys[0] <= s.now ==>
              var t := KernelModel.Schedule(Take(s, SLEEPING), s.q[SLEEPING][0]);
              && Core(t, {s.current}) && Wake(t) == Wake(s) && t.current == s.current
              && |t.q[SLEEPING]| < |s.q[SLEEPING]| && NodesInUse(Take(s, SLEEPING)) < NODE_COUNT
  {
    NodesSuffice(s, {s.current});
    if s.keys != [] && s.keys[0] <= s.now {
      WakeOneCore(s, {s.current});
    }
  }

  lemma TickReady(s: State)
    requires Inv(s)
    ensures var s0 := s.(now := NextTime(s));
            Core(s0, {s.current}) && Inv(Wake(s0)) && Tock(s) == Quantum(Wake(s0)) && Tock(s).Ok?
  {
    ClockCore(s, {s.current}, NextTime(s));
    WakeInv(s, NextTime(s));
    TickInv(s);
  }

  /** The queue headers as _pcb_init, _stack_init and _shm_init reset them. */
  method FreshQueues() returns (qs: seq<Queue>)
    ensures |qs| == QUEUES && Distinct(qs)
    ensures forall q :: q in qs ==> fresh(q) && q.Ok() && q.chain == [] && q.items == [] && q.keys == []
    ensures forall i :: 0 <= i < QUEUES ==> (qs[i].ordered <==> i == SLEEPING)
  {
    qs := [];
    for i := 0 to QUEUES
      invariant |qs| == i && Distinct(qs)
      invariant forall q :: q in qs ==> fresh(q) && q.Ok() && q.chain == [] && q.items == [] && q.keys == []
      invariant forall j :: 0 <= j < i ==> (qs[j].ordered <==> j == SLEEPING)
    {
      var q := new Queue(i == SLEEPING);
      qs := qs + [q];
    }
  }

  /** _q_init, with the queues that will share the nodes. */
  method QueueModule() returns (pool: Pool, qs: seq<Queue>)
    ensures fresh(pool) && fresh(pool.nodes) && fresh(pool.queues)
    ensures pool.Valid() && pool.used == 0 && pool.queues == (set q | q in qs) && |qs| == QUEUES && Distinct(qs)
    ensures forall i :: 0 <= i < QUEUES ==>
              qs[i].items == [] && qs[i].keys == [] && (qs[i].ordered <==> i == SLEEPING)
  {
    qs := FreshQueues();
    pool := new Pool(set q | q in qs);
    forall i | 0 <= i < QUEUES ensures qs[i].items == [] && qs[i].keys == [] {
      assert qs[i] in qs;
    }
  }

  class Kernel {
    const pool: Pool
    const queue: seq<Queue>  // the ready levels, sleeping, reading, and the three free pools
    const pcbs: array<Pcb>
    const serial: Serial
    var current: Id
    var now: nat
    var nextPid: Pid
    var panicked: bool
    ghost var leaked: seq<Id>

    ghost const Repr: set<object>

    /** The parts are sound and wired together. */
    ghost predicate Wired()
      reads this, Repr
    {
      && this in Repr && pool in Repr && pcbs in Repr && serial in Repr
      && serial.inbuffer in Repr && serial.outbuffer in Repr
      && pool.nodes <= Repr && pool.queues <= Repr
      && |queue| == QUEUES && Distinct(queue) && pool.queues == (set q | q in queue)
      && (forall i :: 0 <= i < QUEUES ==> (queue[i].ordered <==> i == SLEEPING))
      && pool.Valid() && serial.Valid() && pcbs.Length == MAX_PROCS
      && |queue[SLEEPING].keys| == |queue[SLEEPING].items|
    }

    ghost function Contents(): (q: seq<seq<Id>>)
      requires Wired()
      reads this, Repr
      ensures |q| == QUEUES && forall i :: 0 <= i < QUEUES ==> q[i] == queue[i].items
    {
      seq(QUEUES, i requires 0 <= i < QUEUES && Wired() reads this, Repr => queue[i].items)
    }

    ghost function View(): (s: State)
      requires Wired()
      reads this, Repr
      ensures Shape(s)
    {
      State(pcbs[..], current, Contents(), queue[SLEEPING].keys, now, nextPid, leaked, serial.View())
    }

    ghost predicate Valid()
      reads this, Repr
    {
      Wired() && pool.used == NodesInUse(View())
    }

    /** Node conservation on the heap: every node is free or in the chain of one queue, and five are always free. */
    lemma NodesConserved()
      requires Valid() && Inv(View())
      ensures |pool.freeChain| >= 5
      ensures forall n :: n in pool.nodes ==> n in pool.freeChain || exists q :: q in queue && n in q.chain
      ensures forall n :: n in pool.freeChain ==> n in pool.nodes && forall q :: q in queue ==> n !in q.chain
      ensures forall q, p :: q in queue && p in queue && p != q ==> forall n :: n in q.chain ==> n !in p.chain
    {
      hide Inv, NodesInUse, LineLength;
      InvRoom(View());
      QueuedNodes();
      pool.NodesPartitioned(queue);
    }

    lemma QueuedNodes()
      requires Valid()
      ensures SumLengths(queue) == pool.used
    {
      ChainLengths();
      assert queue[0..] == queue;
      NextSum(queue, 0);
      NextSum(queue, 1);
      NextSum(queue, 2);
      NextSum(queue, 3);
      NextSum(queue, 4);
      NextSum(queue, 5);
      NextSum(queue, 6);
      NextSum(queue, 7);
    }

    lemma ChainLengths()
      requires Wired()
      ensures forall i :: 0 <= i < QUEUES ==> |queue[i].chain| == |View().q[i]|
    {
      assert forall i :: 0 <= i < QUEUES ==> queue[i] in pool.queues;
    }

    /** The kernel around its static parts: reset queues, a cleared table, an idle serial port. */
    constructor (pool: Pool, queue: seq<Queue>, serial: Serial)
      requires pool.Valid() && pool.used == 0 && pool.queues == (set q | q in queue)
      requires |queue| == QUEUES && Distinct(queue)
      requires forall i :: 0 <= i < QUEUES ==>
                 queue[i].items == [] && queue[i].keys == [] && (queue[i].ordered <==> i == SLEEPING)
      requires serial.Valid() && serial.View() == EMPTY_SIO
      ensures fresh(pcbs) && this.pool == pool && this.queue == queue && this.serial == serial
      ensures Wired() && !panicked && View() == Bare().(q := Contents())
    {
      this.pool, this.queue, this.serial := pool, queue, serial;
      var table := new Pcb[MAX_PROCS](_ => CLEAR_PCB);
      pcbs := table;
      current, now, nextPid, panicked, leaked := 0, 0, 0, false, [];
      Repr := {this, pool, table, serial, serial.inbuffer, serial.outbuffer} + pool.nodes + pool.queues;
      new;
      assert pcbs[..] == Bare().pcbs;
    }

    /** Power-up: the static data of the kernel, before _pcb_init and its sisters fill the pools. */
    static method PowerUp() returns (k: Kernel)
      ensures fresh(k) && fresh(k.pool) && fresh(k.pool.nodes) && fresh(k.pool.queues) && fresh(k.pcbs)
      ensures fresh(k.serial) && fresh(k.serial.inbuffer) && fresh(k.serial.outbuffer)
      ensures k.Valid() && !k.panicked && k.View() == Bare()
    {
      hide Bare, NodesInUse;
      var serial := new Serial();
      var pool, queue := QueueModule();
      k := Assemble(pool, queue, serial);
    }

    static method Assemble(pool: Pool, queue: seq<Queue>, serial: Serial) returns (k: Kernel)
      requires pool.Valid() && pool.used == 0 && pool.queues == (set q | q in queue)
      requires |queue| == QUEUES && Distinct(queue)
      requires forall i :: 0 <= i < QUEUES ==>
                 queue[i].items == [] && queue[i].keys == [] && (queue[i].ordered <==> i == SLEEPING)
      requires serial.Valid() && serial.View() == EMPTY_SIO
      ensures fresh(k) && fresh(k.pcbs) && k.pool == pool && k.serial == serial
      ensures k.Valid() && !k.panicked && k.View() == Bare()
    {
      hide Bare, NodesInUse;
      k := new Kernel(pool, queue, serial);
      NothingQueued(k.Contents());
    }

    // -------- Queue primitives --------

    /** _q_insert on one of the kernel's queues. */
    method Enqueue(i: nat, x: Id) returns (status: QueuePool.Status)
      requires Valid() && i < QUEUES && NodesInUse(View()) < NODE_COUNT
      modifies pool, pool.nodes, queue[i]
      ensures Valid() && status == Success
      ensures View() == if i == SLEEPING then PutSleeping(old(View()), x) else Put(old(View()), i, x)
    {
      hide NodesInUse, Rank, Sorted, Spot;
      ghost var s := View();
      var hash := if i == SLEEPING then pcbs[x].wakeup else 0;
      SpotIs(queue[i].ordered, queue[i].keys, hash);
      status := pool.Insert(queue[i], x, hash);
      InsertedView(s, View(), i, x, hash);
    }

    /** _q_remove on one of the kernel's queues. */
    method Dequeue(i: nat) returns (r: Removed)
      requires Valid() && i < QUEUES
      modifies pool, pool.nodes, queue[i]
      ensures Valid()
      ensures old(View()).q[i] == [] ==> r == Null && View() == old(View())
      ensures old(View()).q[i] != [] ==> r == Item(old(View()).q[i][0]) && View() == Take(old(View()), i)
    {
      hide NodesInUse;
      ghost var s := View();
      r := pool.Remove(queue[i]);
      if r.Item? {
        RemovedView(s, View(), i);
      } else {
        assert View().q == s.q;
      }
    }

    // -------- Scheduler --------

    /** _schedule */
    method Schedule(x: Id) returns (status: QueuePool.Status)
      requires Valid() && NodesInUse(View()) < NODE_COUNT
      modifies pool, pool.nodes, pool.queues, pcbs
      ensures Valid() && View() == KernelModel.Schedule(old(View()), x)
      ensures status == if old(pcbs[x].level) >= MLQ_LEVELS then BadLevel else Success
    {
      if pcbs[x].level >= MLQ_LEVELS {
        return BadLevel;
      }
      SetPcbTo(x, pcbs[x].(status := Ready));
      status := Enqueue(pcbs[x].level, x);
    }

    /** Assignment to fields of one table entry. */
    method SetPcbTo(x: Id, pcb: Pcb)
      requires Valid()
      modifies pcbs
      ensures Valid() && View() == SetPcb(old(View()), x, pcb)
    {
      ghost var s := View();
      pcbs[x] := pcb;
      assert View().q == s.q;
    }

    /** _cleanup, with _stack_dealloc and _pcb_dealloc. */
    method Cleanup(x: Id)
      requires Valid() && NodesInUse(View()) + 2 <= NODE_COUNT
      modifies pool, pool.nodes, pool.queues, pcbs
      ensures Valid() && View() == KernelModel.Cleanup(old(View()), x)
    {
      if pcbs[x].stack.StackAt? {
        var stat := StackDealloc(pcbs[x].stack.index);
      }
      var stat := PcbDealloc(x);
    }

    /** _q_isempty */
    method IsEmpty(i: nat) returns (empty: bool)
      requires Valid() && i < QUEUES
      ensures empty <==> View().q[i] == []
    {
      assert queue[i] in pool.queues;
      empty := queue[i].first == null;
    }

    /** _dispatch */
    method Dispatch()
      requires Valid() && !panicked && NodesInUse(View()) + LineLength(View()) <= NODE_COUNT
      modifies pool, pool.nodes, pool.queues, pcbs, `current, `panicked
      ensures Valid()
      ensures panicked <==> KernelModel.Dispatch(old(View())) == Panic
      ensures !panicked ==> KernelModel.Dispatch(old(View())) == Ok(View())
    {
      hide NodesInUse, LineLength, DispatchFrom, KernelModel.Dispatch;
      var pcb := NextReady();
      if pcb.Null? {
        ghost var s := View();
        panicked := true;
        assert View().q == s.q;
        NodesAlike(s, View());
        return;
      }
      SetPcbTo(pcb.data, pcbs[pcb.data].(status := Running, quantum := QUANTUM_DEFAULT));
      ghost var s := View();
      current := pcb.data;
      assert View().q == s.q;
      NodesAlike(s, View());
    }

    /** The loop of _dispatch: the first ready process, off its queue, with the zombies before it reaped. */
    method NextReady() returns (pcb: Removed)
      requires Valid() && NodesInUse(View()) + LineLength(View()) <= NODE_COUNT
      modifies pool, pool.nodes, pool.queues, pcbs
      ensures Valid()
      ensures pcb.Null? ==> KernelModel.Dispatch(old(View())) == Panic
      ensures pcb.Item? ==> KernelModel.Dispatch(old(View())) == Ok(GiveCpu(View(), pcb.data))
    {
      hide Wired, DispatchFrom, NodesInUse;
      ghost var s0 := View();
      var level := 0;
      while level < MLQ_LEVELS
        invariant Valid() && level <= MLQ_LEVELS && Underway(s0, View(), level, Null, true)
        decreases MLQ_LEVELS - level, if level < MLQ_LEVELS then |View().q[level]| else 0
      {
        ghost var s := View();
        var empty := IsEmpty(level);
        if empty {
          UnderwaySkip(s0, s, level);
          level := level + 1;
        } else {
          var sane;
          pcb, sane := Examine(level);
          UnderwayTurn(s0, s, level, View(), pcb, sane);
          if pcb.Item? || !sane {
            return;
          }
        }
      }
      UnderwayEnd(s0, View());
      return Null;
    }

    /** One turn of the loop on a non-empty queue. */
    method Examine(level: nat) returns (pcb: Removed, sane: bool)
      requires Valid() && level < MLQ_LEVELS && View().q[level] != []
      requires NodesInUse(View()) + LineLength(View()) <= NODE_COUNT
      modifies pool, pool.nodes, pool.queues, pcbs
      ensures Valid() && Examined(old(View()), level, View(), pcb, sane)
    {
      TakeRoom(View(), level);
      pcb := Dequeue(level);
      sane := true;
      if pcbs[pcb.data].status != Ready {
        if pcbs[pcb.data].status == Zombie {
          Cleanup(pcb.data);
        } else {
          sane := false;
        }
        pcb := Null;
      }
    }

    // -------- PCB and stack pools --------

    /** _pcb_alloc */
    method PcbAlloc() returns (pcb: Removed)
      requires Valid()
      modifies pool, pool.nodes, pool.queues, pcbs
      ensures Valid()
      ensures old(View()).q[FREE_PCBS] == [] ==> pcb == Null && View() == old(View())
      ensures old(View()).q[FREE_PCBS] != [] ==>
                var x := old(View()).q[FREE_PCBS][0];
                pcb == Item(x) && View() == SetStatus(Take(old(View()), FREE_PCBS), x, New)
    {
      pcb := Dequeue(FREE_PCBS);
      if pcb.Item? {
        SetPcbTo(pcb.data, pcbs[pcb.data].(status := New));
      }
    }

    /** _pcb_dealloc */
    method PcbDealloc(x: Id) returns (status: QueuePool.Status)
      requires Valid() && NodesInUse(View()) < NODE_COUNT
      modifies pool, pool.nodes, pool.queues, pcbs
      ensures Valid() && status == Success
      ensures View() == Put(SetStatus(old(View()), x, Free), FREE_PCBS, x)
    {
      SetPcbTo(x, pcbs[x].(status := Free));
      status := Enqueue(FREE_PCBS, x);
    }

    /** _make_proc, without the machine-level stack frame. */
    method MakeProc(x: Id, stack: Id, level: nat) returns (pid: Pid)
      requires Valid()
      modifies pcbs, `nextPid
      ensures Valid() && pid == old(nextPid)
      ensures View() == SetPcb(old(View()), x, CLEAR_PCB.(pid := pid, level := level, stack := StackAt(stack)))
                        .(nextPid := (pid + 1) % HALF)
    {
      pid := nextPid;
      SetPcbTo(x, CLEAR_PCB.(stack := StackAt(stack), pid := pid, level := level));
      ghost var s := View();
      nextPid := (nextPid + 1) % HALF;
      assert View().q == s.q;
    }

    // -------- System calls --------

    /** An assignment to the current process' saved EAX. */
    method Answer(eax: nat)
      requires Valid()
      modifies pcbs
      ensures Valid() && View() == SetEax(old(View()), current, eax)
    {
      SetPcbTo(current, pcbs[current].(eax := eax));
    }

    /** _stack_alloc */
    method StackAlloc() returns (stack: Removed)
      requires Valid()
      modifies pool, pool.nodes, pool.queues
      ensures Valid()
      ensures old(View()).q[FREE_STACKS] == [] ==> stack == Null && View() == old(View())
      ensures old(View()).q[FREE_STACKS] != [] ==>
                stack == Item(old(View()).q[FREE_STACKS][0]) && View() == Take(old(View()), FREE_STACKS)
    {
      stack := Dequeue(FREE_STACKS);
    }

    /** _stack_dealloc */
    method StackDealloc(stack: Id) returns (status: QueuePool.Status)
      requires Valid() && NodesInUse(View()) < NODE_COUNT
      modifies pool, pool.nodes, pool.queues
      ensures Valid() && status == Success && View() == Put(old(View()), FREE_STACKS, stack)
    {
      status := Enqueue(FREE_STACKS, stack);
    }

    /** _shm_alloc; the segment's fields are not modelled. */
    method ShmAlloc() returns (segment: Removed)
      requires Valid()
      modifies pool, pool.nodes, pool.queues
      ensures Valid()
      ensures old(View()).q[FREE_SHMS] == [] ==> segment == Null && View() == old(View())
      ensures old(View()).q[FREE_SHMS] != [] ==>
                segment == Item(old(View()).q[FREE_SHMS][0]) && View() == Take(old(View()), FREE_SHMS)
    {
      segment := Dequeue(FREE_SHMS);
    }

    /** _shm_dealloc */
    method ShmDealloc(segment: Id) returns (status: QueuePool.Status)
      requires Valid() && NodesInUse(View()) < NODE_COUNT
      modifies pool, pool.nodes, pool.queues
      ensures Valid() && status == Success && View() == Put(old(View()), FREE_SHMS, segment)
    {
      status := Enqueue(FREE_SHMS, segment);
    }

    /** The middle of _spawn: the child is made, its pid goes to the parent and the parent's to the child. */
    method Populate(ghost s: State, x: Id, stack: Id, level: nat)
      requires Valid() && Shape(s) && s.q[FREE_PCBS] != [] && s.q[FREE_STACKS] != []
      requires x == s.q[FREE_PCBS][0] && stack == s.q[FREE_STACKS][0]
      requires View() == Take(SetStatus(Take(s, FREE_PCBS), x, New), FREE_STACKS)
      modifies pcbs, `nextPid
      ensures Valid() && View() == Child(s, level)
    {
      hide Wired;
      NewProcView(s, level);
      var pid := MakeProc(x, stack, level);
      Answer(pid);
      SetPcbTo(x, pcbs[x].(ppid := pcbs[current].pid));
    }

    /** _spawn */
    method Spawn(level: nat)
      requires Valid() && !panicked && Inv(View())
      modifies pool, pool.nodes, pool.queues, pcbs, `current, `panicked, `nextPid, `leaked
      ensures Valid() && !panicked && SpawnCall(old(View()), level) == Ok(View())
    {
      hide Wired, Inv, SpawnCall, NodesInUse, Child;
      ghost var s := View();
      SpawnGivesUp(s, level);
      var pcb := PcbAlloc();
      if pcb.Null? {
        Answer(MINUS_ONE);
        return;
      }
      AllocRoom(s);
      var stack := StackAlloc();
      if stack.Null? {
        GiveBack(s, pcb.data);
        return;
      }
      Populate(s, pcb.data, stack.data, level);
      ChildFirstThenParent(s, pcb.data, level);
    }

    /** The end of _spawn: the child is scheduled, then the parent. */
    method ChildFirstThenParent(ghost s: State, x: Id, ghost level: nat)
      requires Valid() && !panicked && Inv(s) && s.q[FREE_PCBS] != [] && s.q[FREE_STACKS] != []
      requires View() == Child(s, level) && x == s.q[FREE_PCBS][0]
      modifies pool, pool.nodes, pool.queues, pcbs, `current, `panicked, `leaked
      ensures Valid() && !panicked && SpawnCall(s, level) == Ok(View())
    {
      hide Wired, Inv, Core, Child, KernelModel.Dispatch, NodesInUse, LineLength;
      SpawnRoom(s, level);
      LinedCore(s, level);
      Launch(x);
      var stat := Schedule(current);
      Dispatch();
    }

    /** The branch of _spawn that finds no stack. */
    method GiveBack(ghost s: State, x: Id)
      requires Valid() && Shape(s) && s.q[FREE_PCBS] != [] && x == s.q[FREE_PCBS][0] && s.current == current
      requires View() == SetStatus(Take(s, FREE_PCBS), x, New) && NodesInUse(View()) < NODE_COUNT
      modifies pool, pool.nodes, pool.queues, pcbs
      ensures Valid()
      ensures View() == SetEax(Put(SetStatus(Take(s, FREE_PCBS), x, Free), FREE_PCBS, x), s.current, MINUS_ONE)
    {
      hide Wired;
      var stat := PcbDealloc(x);
      Answer(MINUS_ONE);
    }

    /** The call to _schedule for a new process, whose result _spawn ignores. */
    method Launch(x: Id)
      requires Valid() && NodesInUse(View()) < NODE_COUNT
      modifies pool, pool.nodes, pool.queues, pcbs, `leaked
      ensures Valid() && View() == Admit(old(View()), x)
    {
      var stat := Schedule(x);
      if stat == BadLevel {
        ghost var s := View();
        leaked := leaked + [x];
        assert View().q == s.q;
      }
    }

    /** A dispatch outcome, as the fields show it. */
    ghost predicate Shows(o: Outcome)
      reads this, Repr
    {
      Valid() && o == (if panicked then Panic else Ok(View()))
    }

    /** _sys_sleep */
    method Sleep(num: nat)
      requires Valid() && !panicked && Inv(View())
      modifies pool, pool.nodes, pool.queues, pcbs, `current, `panicked
      ensures Shows(SleepCall(old(View()), num))
    {
      hide Wired, Inv, NodesInUse, LineLength, Take, KernelModel.Dispatch;
      if num != 0 {
        var wakeup := (now + num * TICKS_PER_SECOND) % WORD;
        DozeRoom(View(), wakeup);
        Doze(wakeup);
      } else {
        YieldRoom(View());
        var stat := Schedule(current);
      }
      Dispatch();
    }

    /** The insertion into the sleep queue. */
    method Doze(wakeup: nat)
      requires Valid() && NodesInUse(View()) < NODE_COUNT
      modifies pool, pool.nodes, pool.queues, pcbs
      ensures Valid() && View() == Dozing(old(View()), wakeup)
    {
      SetPcbTo(current, pcbs[current].(wakeup := wakeup, status := Sleeping));
      var stat := Enqueue(SLEEPING, current);
    }

    /** _sys_exit */
    method Exit()
      requires Valid() && !panicked && Inv(View())
      modifies pool, pool.nodes, pool.queues, pcbs, `current, `panicked
      ensures Shows(ExitCall(old(View())))
    {
      hide Wired, Inv, NodesInUse, LineLength, KernelModel.Cleanup, KernelModel.Dispatch;
      LeaveRoom(View());
      Cleanup(current);
      Dispatch();
    }

    /** _sys_read */
    method Read()
      requires Valid() && !panicked && Inv(View())
      modifies pool, pool.nodes, pool.queues, pcbs, serial, `current, `panicked
      ensures Shows(ReadCall(old(View())))
    {
      hide Inv, LineLength, KernelModel.Dispatch;
      ghost var s := View();
      LeaveRoom(s);
      var ch := serial.Read();
      assert View().q == s.q;
      if ch >= 0 {
        Answer(ch);
      } else {
        Block();
        Dispatch();
      }
    }

    /** The current process joins the line of readers. */
    method Block()
      requires Valid() && NodesInUse(View()) < NODE_COUNT
      modifies pool, pool.nodes, pool.queues, pcbs
      ensures Valid() && View() == Put(SetStatus(old(View()), current, Blocked), READING, current)
    {
      SetPcbTo(current, pcbs[current].(status := Blocked));
      var stat := Enqueue(READING, current);
    }

    /** _sys_write; `ok` is false when a byte falls outside the output buffer. */
    method Write(ch: nat) returns (ok: bool)
      requires Valid()
      modifies serial, serial.outbuffer
      ensures Valid() && (ok <==> WriteCall(old(View()), ch).Ok?)
      ensures ok ==> WriteCall(old(View()), ch) == Ok(View())
    {
      ghost var s := View();
      ok := serial.Write(ch);
      assert View().q == s.q;
    }

    /** _sys_kill */
    method Kill(pid: nat)
      requires Valid() && !panicked && Inv(View())
      modifies pool, pool.nodes, pool.queues, pcbs, `current, `panicked
      ensures Shows(KillCall(old(View()), pid))
    {
      hide Wired, Inv, KernelModel.Dispatch, KernelModel.Cleanup, Find;
      ghost var s := View();
      LeaveAnswered(s);
      Answer(MINUS_ONE);
      if pid == 0 {
        return;
      }
      if pid == pcbs[current].pid {
        Exit();
        return;
      }
      var x := Search(pid);
      if x < MAX_PROCS {
        SearchUnmoved(s, View(), pid);
        MarkTwice(s, x, pcbs[x].status.Code());
        Answer(pcbs[x].status.Code());
        SetPcbTo(x, pcbs[x].(status := Zombie));
      } else {
        SearchUnmoved(s, View(), pid);
      }
    }

    /** The search loop of _sys_kill: the first active entry with this pid, or the table size. */
    method Search(pid: nat) returns (x: nat)
      requires Valid()
      ensures x <= MAX_PROCS && x == Find(View().pcbs, pid, 0)
    {
      x := 0;
      while x < MAX_PROCS && !(pcbs[x].pid == pid && pcbs[x].status.Active())
        invariant x <= MAX_PROCS
        invariant forall y :: 0 <= y < x ==> !(pcbs[y].pid == pid && pcbs[y].status.Active())
      {
        x := x + 1;
      }
      FindIs(pcbs[..], pid, x);
    }

    /** _sys_getpidlist: the number of active processes, and the pids that fit in `size` places. */
    method GetPidList(size: nat) returns (buf: seq<nat>)
      requires Valid()
      modifies pcbs
      ensures Valid() && Step(old(View()), Event.GetPidList(size)) == Ok(View())
      ensures var all := ActivePids(old(View()).pcbs, MAX_PROCS);
              buf == if size < |all| then all[..size] else all
    {
      ghost var table := View().pcbs;
      var num, left := 0, size;
      buf := [];
      for x := 0 to MAX_PROCS
        invariant pcbs[..] == table && num == |ActivePids(table, x)| <= x
        invariant |buf| + left == size && |buf| == (if size < num then size else num)
        invariant buf == ActivePids(table, x)[..|buf|]
      {
        if pcbs[x].status.Active() {
          num := num + 1;
          if left > 0 {
            buf := buf + [pcbs[x].pid];
            left := left - 1;
          }
        }
      }
      Answer(num);
    }

    /** _sys_time */
    method Time()
      requires Valid()
      modifies pcbs
      ensures Valid() && Step(old(View()), Event.Time) == Ok(View())
    {
      Answer(now / TICKS_PER_SECOND);
    }

    /** _sys_getpid */
    method GetPid()
      requires Valid()
      modifies pcbs
      ensures Valid() && Step(old(View()), Event.GetPid) == Ok(View())
    {
      Answer(pcbs[current].pid);
    }

    /** _sys_getppid */
    method GetPpid()
      requires Valid()
      modifies pcbs
      ensures Valid() && Step(old(View()), Event.GetPpid) == Ok(View())
    {
      Answer(pcbs[current].ppid);
    }

    // -------- Clock and UART --------

    /** _q_remove_if_le on the sleep queue, with the current time. */
    method NextDue() returns (r: Removed)
      requires Valid()
      modifies pool, pool.nodes, pool.queues
      ensures Valid()
      ensures var s := old(View());
              if s.keys == [] || s.keys[0] > now then r == Null && View() == s
              else r == Item(s.q[SLEEPING][0]) && View() == Take(s, SLEEPING)
    {
      hide NodesInUse;
      ghost var s := View();
      r := pool.RemoveIfLe(queue[SLEEPING], now);
      if r.Item? {
        RemovedView(s, View(), SLEEPING);
      } else {
        assert View().q == s.q;
      }
    }

    /** The wake loop of _isr_clock. */
    method WakeDue()
      requires Valid() && Core(View(), {current})
      modifies pool, pool.nodes, pool.queues, pcbs
      ensures Valid() && View() == Wake(old(View()))
    {
      hide Wired, Core;
      ghost var s0 := View();
      var done := false;
      while !done
        invariant Valid() && Core(View(), {current}) && Wake(View()) == Wake(s0) && View().current == current
        invariant done ==> View() == Wake(s0)
        decreases !done, |View().q[SLEEPING]|
      {
        ghost var s := View();
        WakeStep(s);
        var pcb := NextDue();
        if pcb.Null? {
          done := true;
        } else {
          var stat := Schedule(pcb.data);
        }
      }
    }

    /** _isr_clock, without the pinwheel and the RAM disk. */
    method IsrClock()
      requires Valid() && !panicked && Inv(View())
      modifies pool, pool.nodes, pool.queues, pcbs, `current, `panicked, `now
      ensures Valid() && !panicked && Tock(old(View())) == Ok(View())
    {
      hide Wired, Inv, Core, KernelModel.Dispatch, Wake;
      TickReady(View());
      Advance();
      WakeDue();
      Preempt();
    }

    /** The clock goes on by one tick, in 32 bits. */
    method Advance()
      requires Valid()
      modifies `now
      ensures Valid() && View() == old(View()).(now := NextTime(old(View())))
    {
      ghost var s := View();
      now := if now + 1 < WORD then now + 1 else 0;
      assert View().q == s.q;
    }

    /** The quantum of the current process. */
    method Preempt()
      requires Valid() && !panicked && Inv(View())
      modifies pool, pool.nodes, pool.queues, pcbs, `current, `panicked
      ensures Shows(Quantum(old(View())))
    {
      hide Wired, Inv, KernelModel.Dispatch, NodesInUse, LineLength;
      if pcbs[current].quantum == 0 {
        YieldRoom(View());
        var stat := Schedule(current);
        Dispatch();
      } else {
        SetPcbTo(current, pcbs[current].(quantum := pcbs[current].quantum - 1));
      }
    }

    /** The transmitter event of _isr_sio. */
    method IsrTransmit()
      requires Valid()
      modifies serial
      ensures Valid() && View() == old(View()).(io := Transmit(old(View()).io))
    {
      ghost var s := View();
      serial.SendNext();
      assert View().q == s.q;
    }

    /** A character nobody waits for. */
    method Buffer(ch: nat) returns (ok: bool)
      requires Valid()
      modifies serial, serial.inbuffer
      ensures Valid() && (ok <==> Store(old(View()).io, ch).Fine?)
      ensures ok ==> View() == old(View()).(io := Store(old(View()).io, ch).sio)
    {
      ghost var s := View();
      ok := serial.StoreInput(ch);
      assert View().q == s.q;
    }

    /** The receiver event of _isr_sio; `ok` is false when the character falls outside the input buffer. */
    method IsrReceive(byte: nat) returns (ok: bool)
      requires Valid() && !panicked && Inv(View())
      modifies pool, pool.nodes, pool.queues, pcbs, serial, serial.inbuffer
      ensures Valid() && (ok <==> ReceiveByte(old(View()), byte).Ok?)
      ensures ok ==> ReceiveByte(old(View()), byte) == Ok(View())
    {
      hide Wired, Inv, LineLength;
      ghost var s := View();
      InvRoom(s);
      var ch := if byte % 256 == CR then LF else byte % 256;
      var waiting := IsEmpty(READING);
      if !waiting {
        HandOver(ch);
        ok := true;
      } else {
        ReceiveBuffers(s, byte);
        ok := Buffer(ch);
      }
    }

    /** A waiting reader gets the character and becomes ready. */
    method HandOver(ch: nat)
      requires Valid() && View().q[READING] != [] && NodesInUse(View()) <= NODE_COUNT
      modifies pool, pool.nodes, pool.queues, pcbs
      ensures var s := old(View()); var x := s.q[READING][0];
              Valid() && View() == KernelModel.Schedule(SetEax(Take(s, READING), x, ch), x)
    {
      var pcb := Dequeue(READING);
      SetPcbTo(pcb.data, pcbs[pcb.data].(eax := ch));
      var stat := Schedule(pcb.data);
    }
  }
}
