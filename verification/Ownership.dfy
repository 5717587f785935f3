/** Who owns each PCB and each stack, and why no step can lose or duplicate one. */
module Ownership {
  import opened QueuePool
  import opened KernelModel
  import opened SerialModel

  /** In how many queue positions PCB `x` appears. */
  ghost function Occurrences(s: State, x: Id): nat
    requires Shape(s)
  {
    multiset(s.q[0])[x] + multiset(s.q[1])[x] + multiset(s.q[2])[x] + multiset(s.q[SLEEPING])[x]
    + multiset(s.q[READING])[x] + multiset(s.q[FREE_PCBS])[x] + multiset(s.leaked)[x]
  }

  /** Every PCB is in exactly one place; those in `out` are in the kernel's hands, off every queue. */
  ghost predicate Placed(s: State, out: set<Id>)
    requires Shape(s)
  {
    forall x: Id :: Occurrences(s, x) + (if x in out then 1 else 0) == 1
  }

  /** The status and level of a PCB agree with the place where it is. */
  ghost predicate StatusAgrees(s: State)
    requires Shape(s)
  {
    && (forall l, x :: 0 <= l < MLQ_LEVELS && x in s.q[l] ==>
          s.pcbs[x].status in {Ready, Zombie} && s.pcbs[x].level == l)
    && (forall x :: x in s.q[SLEEPING] ==> s.pcbs[x].status in {Sleeping, Zombie} && s.pcbs[x].level < MLQ_LEVELS)
    && (forall x :: x in s.q[READING] ==> s.pcbs[x].status in {Blocked, Zombie} && s.pcbs[x].level < MLQ_LEVELS)
    && (forall x :: x in s.q[FREE_PCBS] ==> s.pcbs[x].status == Free)
    && (forall x :: x in s.leaked ==> s.pcbs[x].status == Free)
  }

  /** Stacks are free or held by one PCB; a PCB holds a stack exactly when it is not in the free pool. */
  ghost predicate StacksOwned(s: State)
    requires Shape(s)
  {
    && |s.q[FREE_STACKS]| == |s.q[FREE_PCBS]|
    && Distinct(s.q[FREE_STACKS])
    && (forall x: Id :: x !in s.q[FREE_PCBS] ==>
          s.pcbs[x].stack.StackAt? && s.pcbs[x].stack.index !in s.q[FREE_STACKS])
    && (forall x: Id, y: Id :: x !in s.q[FREE_PCBS] && y !in s.q[FREE_PCBS] && x != y ==>
          s.pcbs[x].stack != s.pcbs[y].stack)
  }

  /** The sleep queue is sorted by wakeup times; these and the clock are 32 bits wide. */
  ghost predicate SleepersKeyed(s: State)
    requires Shape(s)
  {
    && s.now < WORD && Sorted(s.keys)
    && forall j :: 0 <= j < |s.keys| ==> s.keys[j] == s.pcbs[s.q[SLEEPING][j]].wakeup && s.keys[j] < WORD
  }

  ghost predicate ShmsSingle(s: State)
    requires Shape(s)
  {
    Distinct(s.q[FREE_SHMS]) && forall k :: k in s.q[FREE_SHMS] ==> k < MAX_SHMS
  }

  ghost predicate SerialOk(io: Sio) {
    && |io.input| <= io.stored <= BUF_SIZE && (io.input == [] ==> io.stored == 0)
    && |io.output| <= io.queued <= BUF_SIZE
    && (!io.sending ==> io.output == [] && io.queued == 0)
    && forall j :: 0 <= j < |io.input| ==> io.input[j] < 256
  }

  /** The invariant inside a handler, while it holds the PCBs in `out`. */
  ghost predicate Core(s: State, out: set<Id>) {
    && Shape(s) && Placed(s, out) && StatusAgrees(s) && StacksOwned(s)
    && SleepersKeyed(s) && ShmsSingle(s)
  }

  /** The kernel invariant, between handlers. */
  ghost predicate Inv(s: State) {
    && Core(s, {s.current})
    && s.pcbs[s.current].status == Running && s.pcbs[s.current].level < MLQ_LEVELS
    && SerialOk(s.io)
    && (s.q[READING] != [] ==> s.io.input == [])
  }

  // -------- Counting --------

  lemma CountTail(s: seq<Id>, x: Id)
    requires s != []
    ensures multiset(s)[x] == multiset(s[1..])[x] + if s[0] == x then 1 else 0
  {
    assert s == [s[0]] + s[1..];
  }

  lemma CountInsert(s: seq<Id>, k: nat, y: Id, x: Id)
    requires k <= |s|
    ensures multiset(InsertAt(s, k, y))[x] == multiset(s)[x] + if x == y then 1 else 0
  {
    assert s == s[..k] + s[k..];
  }

  lemma OccurrencesTake(s: State, i: nat)
    requires Shape(s) && i <= FREE_PCBS && s.q[i] != []
    ensures forall x: Id :: Occurrences(s, x) == Occurrences(Take(s, i), x) + if x == s.q[i][0] then 1 else 0
  {
    forall x: Id
      ensures Occurrences(s, x) == Occurrences(Take(s, i), x) + if x == s.q[i][0] then 1 else 0
    {
      CountTail(s.q[i], x);
    }
  }

  lemma OccurrencesPut(s: State, i: nat, y: Id)
    requires Shape(s) && i <= FREE_PCBS && i != SLEEPING
    ensures forall x: Id :: Occurrences(Put(s, i, y), x) == Occurrences(s, x) + if x == y then 1 else 0
  {
    assert multiset(s.q[i] + [y]) == multiset(s.q[i]) + multiset{y};
  }

  lemma OccurrencesPutSleeping(s: State, y: Id)
    requires Shape(s)
    ensures forall x: Id :: Occurrences(PutSleeping(s, y), x) == Occurrences(s, x) + if x == y then 1 else 0
  {
    forall x: Id
      ensures Occurrences(PutSleeping(s, y), x) == Occurrences(s, x) + if x == y then 1 else 0
    {
      CountInsert(s.q[SLEEPING], Rank(s.keys, s.pcbs[y].wakeup), y, x);
    }
  }

  /** A PCB that the kernel holds is on no queue. */
  lemma HeldIsOffQueues(s: State, out: set<Id>, x: Id)
    requires Shape(s) && Placed(s, out) && x in out
    ensures forall i :: 0 <= i <= FREE_PCBS ==> x !in s.q[i]
    ensures x !in s.leaked
  {
    assert Occurrences(s, x) == 0;
  }

  lemma OnOneQueue(s: State, out: set<Id>, i: nat, x: Id)
    requires Shape(s) && Placed(s, out) && i <= FREE_PCBS && x in s.q[i]
    ensures x !in out && x !in s.leaked && multiset(s.q[i])[x] == 1
    ensures forall j :: 0 <= j <= FREE_PCBS && j != i ==> x !in s.q[j]
  {
    assert Occurrences(s, x) + (if x in out then 1 else 0) == 1;
  }

  lemma PlacedPut(s: State, r: State, out: set<Id>, x: Id)
    requires Shape(s) && Shape(r) && Placed(s, out) && x in out
    requires forall y: Id :: Occurrences(r, y) == Occurrences(s, y) + if y == x then 1 else 0
    ensures Placed(r, out - {x})
  {
    forall y: Id ensures Occurrences(r, y) + (if y in out - {x} then 1 else 0) == 1 {
      assert Occurrences(s, y) + (if y in out then 1 else 0) == 1;
    }
  }

  // -------- What each primitive does to the invariant --------

  lemma CoreSetPcb(s: State, out: set<Id>, x: Id, pcb: Pcb)
    requires Core(s, out) && x in out && pcb.stack == s.pcbs[x].stack
    ensures Core(SetPcb(s, x, pcb), out)
  {
    HeldIsOffQueues(s, out, x);
    assert forall y: Id :: Occurrences(SetPcb(s, x, pcb), y) == Occurrences(s, y);
  }

  lemma CoreZombie(s: State, out: set<Id>, x: Id)
    requires Core(s, out) && x !in out && s.pcbs[x].status.Active()
    ensures Core(SetStatus(s, x, Zombie), out)
  {
    assert forall y: Id :: Occurrences(SetStatus(s, x, Zombie), y) == Occurrences(s, y);
  }

  lemma CoreTake(s: State, out: set<Id>, i: nat)
    requires Core(s, out) && i <= READING && s.q[i] != []
    ensures Core(Take(s, i), out + {s.q[i][0]}) && s.q[i][0] !in out
  {
    var h, r := s.q[i][0], Take(s, i);
    OccurrencesTake(s, i);
    OnOneQueue(s, out, i, h);
    forall x: Id ensures Occurrences(r, x) + (if x in out + {h} then 1 else 0) == 1 {
      assert Occurrences(s, x) + (if x in out then 1 else 0) == 1;
    }
  }

  lemma CoreSchedule(s: State, out: set<Id>, x: Id)
    requires Core(s, out) && x in out && s.pcbs[x].level < MLQ_LEVELS
    ensures Core(Schedule(s, x), out - {x})
  {
    var s1 := SetStatus(s, x, Ready);
    CoreSetPcb(s, out, x, s.pcbs[x].(status := Ready));
    HeldIsOffQueues(s1, out, x);
    OccurrencesPut(s1, s.pcbs[x].level, x);
    PlacedPut(s1, Schedule(s, x), out, x);
  }

  lemma CoreBlock(s: State, out: set<Id>, x: Id)
    requires Core(s, out) && x in out && s.pcbs[x].level < MLQ_LEVELS && s.pcbs[x].status == Blocked
    ensures Core(Put(s, READING, x), out - {x})
  {
    HeldIsOffQueues(s, out, x);
    OccurrencesPut(s, READING, x);
    PlacedPut(s, Put(s, READING, x), out, x);
  }

  lemma CoreSleep(s: State, out: set<Id>, x: Id)
    requires Core(s, out) && x in out && s.pcbs[x].level < MLQ_LEVELS && s.pcbs[x].status == Sleeping
    requires s.pcbs[x].wakeup < WORD
    ensures Core(PutSleeping(s, x), out - {x})
  {
    HeldIsOffQueues(s, out, x);
    OccurrencesPutSleeping(s, x);
    PlacedPut(s, PutSleeping(s, x), out, x);
    KeyedPutSleeping(s, x);
  }

  lemma KeyedPutSleeping(s: State, x: Id)
    requires Shape(s) && SleepersKeyed(s) && s.pcbs[x].wakeup < WORD
    ensures SleepersKeyed(PutSleeping(s, x))
    ensures forall y :: y in PutSleeping(s, x).q[SLEEPING] <==> y == x || y in s.q[SLEEPING]
  {
    var r, k := PutSleeping(s, x), Rank(s.keys, s.pcbs[x].wakeup);
    SortedInsert(s.keys, s.pcbs[x].wakeup);
    forall j | 0 <= j < |r.keys| ensures r.keys[j] == r.pcbs[r.q[SLEEPING][j]].wakeup && r.keys[j] < WORD {
      assert j < k ==> r.keys[j] == s.keys[j] && r.q[SLEEPING][j] == s.q[SLEEPING][j];
      assert j > k ==> r.keys[j] == s.keys[j - 1] && r.q[SLEEPING][j] == s.q[SLEEPING][j - 1];
    }
    assert s.q[SLEEPING] == s.q[SLEEPING][..k] + s.q[SLEEPING][k..];
  }

  lemma CoreCleanup(s: State, out: set<Id>, x: Id)
    requires Core(s, out) && x in out
    ensures Core(Cleanup(s, x), out - {x})
  {
    HeldIsOffQueues(s, out, x);
    CleanupCounts(s, x);
    PlacedPut(s, Cleanup(s, x), out, x);
  }

  lemma CleanupCounts(s: State, x: Id)
    requires Shape(s) && s.pcbs[x].stack.StackAt?
    ensures forall y: Id :: Occurrences(Cleanup(s, x), y) == Occurrences(s, y) + if x == y then 1 else 0
  {
    var s2 := SetStatus(Put(s, FREE_STACKS, s.pcbs[x].stack.index), x, Free);
    assert forall y: Id :: Occurrences(s2, y) == Occurrences(s, y);
    OccurrencesPut(s2, FREE_PCBS, x);
  }

  lemma CoreNewProc(s: State, out: set<Id>, level: nat)
    requires Core(s, out) && s.q[FREE_PCBS] != []
    ensures s.q[FREE_STACKS] != []
    ensures var x, r := s.q[FREE_PCBS][0], NewProc(s, level);
            && Core(r, out + {x}) && x !in out
            && r.pcbs[x].level == level && r.pcbs[x].status == Free
  {
    var x, k, r := s.q[FREE_PCBS][0], s.q[FREE_STACKS][0], NewProc(s, level);
    OccurrencesTake(s, FREE_PCBS);
    OnOneQueue(s, out, FREE_PCBS, x);
    var s1 := Take(s, FREE_PCBS);
    forall y: Id ensures Occurrences(r, y) + (if y in out + {x} then 1 else 0) == 1 {
      assert Occurrences(r, y) == Occurrences(s1, y);
      assert Occurrences(s, y) + (if y in out then 1 else 0) == 1;
    }
    CountTail(s.q[FREE_PCBS], x);
    assert forall y :: y in s.q[FREE_PCBS] <==> y == x || y in r.q[FREE_PCBS];
  }

  lemma CoreLeak(s: State, out: set<Id>, x: Id)
    requires Core(s, out) && x in out && s.pcbs[x].status == Free
    ensures Core(s.(leaked := s.leaked + [x]), out - {x})
  {
    HeldIsOffQueues(s, out, x);
    var r := s.(leaked := s.leaked + [x]);
    forall y: Id ensures Occurrences(r, y) + (if y in out - {x} then 1 else 0) == 1 {
      assert Occurrences(s, y) + (if y in out then 1 else 0) == 1;
    }
  }
}
