/** Whole runs from system initialisation: no panic, no failed insertion, nothing lost. */
module Runs {
  import opened QueuePool
  import opened KernelModel
  import opened SerialModel
  import opened Ownership
  import opened Dispatching
  import opened Safety
  import opened Lines
  import opened Progress

  // -------- Counting resources --------

  function Ids(n: nat): (ids: seq<Id>)
    requires n <= MAX_PROCS
    ensures |ids| == n && forall i :: 0 <= i < n ==> ids[i] == i
  {
    if n == 0 then [] else Ids(n - 1) + [n - 1]
  }

  const ALL_IDS: seq<Id> := Ids(MAX_PROCS)

  lemma {:induction false} CountOnce<T>(s: seq<T>, x: T)
    requires Distinct(s) && x in s
    ensures multiset(s)[x] == 1
  {
    if s[0] == x {
      assert s == [x] + s[1..] && x !in s[1..];
    } else {
      assert s == [s[0]] + s[1..];
      CountOnce(s[1..], x);
    }
  }

  lemma CountedOnceDistinct(s: seq<Id>)
    requires forall x: Id :: multiset(s)[x] <= 1
    ensures Distinct(s)
  {
    forall i, j | 0 <= i < j < |s| ensures s[i] != s[j] {
      CountsTwice(s, i, j);
    }
  }

  lemma AllIdsOnce(x: Id)
    ensures multiset(ALL_IDS)[x] == 1
  {
    assert ALL_IDS[x] == x;
    CountOnce(ALL_IDS, x);
  }

  /** Conservation of PCBs: queues, leaks and the PCBs in the kernel's hands always add up to the table. */
  lemma PcbsConserved(s: State, out: set<Id>)
    requires Shape(s) && Placed(s, out)
    ensures |s.q[0]| + |s.q[1]| + |s.q[2]| + |s.q[SLEEPING]| + |s.q[READING]| + |s.q[FREE_PCBS]|
            + |s.leaked| + |out| == MAX_PROCS
  {
    hide Ids;
    var m := multiset(s.q[0]) + multiset(s.q[1]) + multiset(s.q[2]) + multiset(s.q[SLEEPING])
             + multiset(s.q[READING]) + multiset(s.q[FREE_PCBS]) + multiset(s.leaked) + multiset(out);
    forall x: Id ensures m[x] == multiset(ALL_IDS)[x] {
      AllIdsOnce(x);
      assert Occurrences(s, x) + (if x in out then 1 else 0) == 1;
    }
    assert m == multiset(ALL_IDS);
    assert |m| == |ALL_IDS|;
  }

  ghost function NodesInUse(s: State): nat
    requires Shape(s)
  {
    |s.q[0]| + |s.q[1]| + |s.q[2]| + |s.q[SLEEPING]| + |s.q[READING]| + |s.q[FREE_PCBS]|
    + |s.q[FREE_STACKS]| + |s.q[FREE_SHMS]|
  }

  /** How many entries the ready queues hold. */
  ghost function LineLength(s: State): nat
    requires Shape(s)
  {
    |s.q[0]| + |s.q[1]| + |s.q[2]|
  }

  /**
   * At least five queue nodes are free in every state of every handler, even counting the one extra node
   * that reaping each queued zombie would take, so no insertion can fail.
   */
  lemma NodesSuffice(s: State, out: set<Id>)
    requires Core(s, out)
    ensures NodesInUse(s) + LineLength(s) + |out| + 5 <= NODE_COUNT
  {
    PcbsConserved(s, out);
    var ks := set k | k in s.q[FREE_SHMS];
    DistinctCard(s.q[FREE_SHMS]);
    var segments: set<Id> := {0, 1, 2, 3};
    SubsetCard(ks, segments);
  }

  ghost function Holders(s: State): set<Id>
    requires Shape(s)
  {
    set x: Id | x !in s.q[FREE_PCBS]
  }

  ghost function StackSet(s: State, xs: set<Id>): set<Id>
    requires Shape(s) && StacksOwned(s) && xs <= Holders(s)
  {
    set x | x in xs :: s.pcbs[x].stack.index
  }

  lemma {:induction false} StackSetCard(s: State, xs: set<Id>)
    requires Shape(s) && StacksOwned(s) && xs <= Holders(s)
    ensures |StackSet(s, xs)| == |xs|
  {
    if xs != {} {
      var x :| x in xs;
      var rest := xs - {x};
      StackSetCard(s, rest);
      assert StackSet(s, xs) == StackSet(s, rest) + {s.pcbs[x].stack.index};
      assert forall y :: y in rest ==> y in Holders(s);
      assert s.pcbs[x].stack.index !in StackSet(s, rest);
    }
  }

  lemma AllIdsSet()
    ensures var all := set x: Id {:trigger x in ALL_IDS} | x in ALL_IDS; |all| == MAX_PROCS && forall x: Id :: x in all
  {
    DistinctCard(ALL_IDS);
    forall x: Id ensures x in ALL_IDS {
      assert ALL_IDS[x] == x;
    }
  }

  /** Every stack is either free or held by exactly one PCB outside the free pool. */
  lemma StacksPartitioned(s: State, out: set<Id>, k: Id)
    requires Core(s, out)
    ensures k in s.q[FREE_STACKS] <==> !exists x: Id :: x !in s.q[FREE_PCBS] && s.pcbs[x].stack == StackAt(k)
    ensures forall x: Id, y: Id | x !in s.q[FREE_PCBS] && y !in s.q[FREE_PCBS] ::
              s.pcbs[x].stack == StackAt(k) && s.pcbs[y].stack == StackAt(k) ==> x == y
  {
    hide Ids, StatusAgrees, SleepersKeyed, ShmsSingle;
    AllIdsSet();
    var all := set x: Id {:trigger x in ALL_IDS} | x in ALL_IDS;
    var free, freePcbs := set j | j in s.q[FREE_STACKS], set x | x in s.q[FREE_PCBS];
    forall x: Id ensures multiset(s.q[FREE_PCBS])[x] <= 1 {
      assert Occurrences(s, x) + (if x in out then 1 else 0) == 1;
    }
    CountedOnceDistinct(s.q[FREE_PCBS]);
    DistinctCard(s.q[FREE_STACKS]);
    DistinctCard(s.q[FREE_PCBS]);
    assert Holders(s) == all - freePcbs;
    StackSetCard(s, Holders(s));
    var held := StackSet(s, Holders(s));
    assert free !! held;
    SubsetOfSameSize(free + held, all);
    assert k in free + held;
  }

  // -------- The census --------

  lemma {:induction false} ActiveCount(pcbs: seq<Pcb>, n: nat)
    requires n <= |pcbs| <= MAX_PROCS
    ensures |ActivePids(pcbs, n)| == |set x: Id | x < n && pcbs[x].status.Active()|
  {
    if n > 0 {
      ActiveCount(pcbs, n - 1);
      var small := set x: Id | x < n - 1 && pcbs[x].status.Active();
      var large := set x: Id | x < n && pcbs[x].status.Active();
      assert large == if pcbs[n - 1].status.Active() then small + {n - 1} else small;
    }
  }

  /** getpidlist counts every PCB that is neither free nor leaked. */
  lemma CensusAgrees(s: State)
    requires Inv(s)
    ensures |ActivePids(s.pcbs, MAX_PROCS)| == MAX_PROCS - |s.q[FREE_PCBS]| - |s.leaked|
  {
    ActiveCount(s.pcbs, MAX_PROCS);
    AllIdsSet();
    var all := set x: Id {:trigger x in ALL_IDS} | x in ALL_IDS;
    var idle: seq<Id> := s.q[FREE_PCBS] + s.leaked;
    forall x: Id
      ensures s.pcbs[x].status.Active() <==> x !in idle
      ensures multiset(s.q[FREE_PCBS] + s.leaked)[x] <= 1
    {
      ActiveMeansQueued(s, x);
    }
    CountedOnceDistinct(idle);
    DistinctCard(idle);
    assert (set x: Id | x < MAX_PROCS && s.pcbs[x].status.Active()) == all - set x | x in idle;
  }

  lemma ActiveMeansQueued(s: State, x: Id)
    requires Inv(s)
    ensures s.pcbs[x].status.Active() <==> x !in s.q[FREE_PCBS] && x !in s.leaked
    ensures multiset(s.q[FREE_PCBS])[x] + multiset(s.leaked)[x] <= 1
  {
    assert Occurrences(s, x) + (if x in {s.current} then 1 else 0) == 1;
    if x !in s.q[FREE_PCBS] && x !in s.leaked && x != s.current {
      assert x in s.q[0] || x in s.q[1] || x in s.q[2] || x in s.q[SLEEPING] || x in s.q[READING];
    }
  }

  /** The list holds the pids of the active table entries, in table order and without gaps. */
  lemma {:induction false} PidsInTableOrder(pcbs: seq<Pcb>, n: nat) returns (index: seq<nat>)
    requires n <= |pcbs|
    ensures |index| == |ActivePids(pcbs, n)|
    ensures forall i :: 0 <= i < |index| ==> index[i] < n && pcbs[index[i]].status.Active()
    ensures forall i :: 0 <= i < |index| ==> ActivePids(pcbs, n)[i] == pcbs[index[i]].pid
    ensures forall i, j :: 0 <= i < j < |index| ==> index[i] < index[j]
    ensures forall x :: 0 <= x < n && pcbs[x].status.Active() ==> x in index
  {
    hide ActivePids;
    ActivePidsGrow(pcbs, n);
    if n == 0 {
      index := [];
    } else {
      index := PidsInTableOrder(pcbs, n - 1);
      if pcbs[n - 1].status.Active() {
        index := index + [n - 1];
      }
    }
  }

  lemma ActivePidsGrow(pcbs: seq<Pcb>, n: nat)
    requires n <= |pcbs|
    ensures n == 0 ==> ActivePids(pcbs, n) == []
    ensures n > 0 ==>
              ActivePids(pcbs, n) ==
              ActivePids(pcbs, n - 1) + if pcbs[n - 1].status.Active() then [pcbs[n - 1].pid] else []
  {
  }

  // -------- Idle, and runs --------

  /** PCB 0 is the idle process: pid 0, lowest level, and always either running or ready. */
  ghost predicate IdleSafe(s: State)
    requires Shape(s)
  {
    && s.pcbs[0].pid == 0 && s.pcbs[0].level == LEVEL_LOW
    && (s.current == 0 || Waits(s, 0, LEVEL_LOW, Ready))
  }

  /** What the environment must respect: buffers with room, single release, and an idle process that stays. */
  ghost predicate Lawful(s: State, e: Event)
    requires Shape(s)
  {
    ShmDiscipline(s, e) && RoomFor(s, e) && !(s.current == 0 && Leaves(s, e))
  }

  lemma LawfulStep(s: State, e: Event)
    requires Inv(s) && IdleSafe(s) && Lawful(s, e)
    ensures Step(s, e).Ok? && Inv(Step(s, e).state) && IdleSafe(Step(s, e).state)
  {
    StepInv(s, e);
    if s.current == 0 {
      CurrentStays(s, e);
    } else {
      assert AnyReady(s, 0);
      ReadyStays(s, e, 0, LEVEL_LOW);
    }
  }

  ghost function Run(s: State, es: seq<Event>): (r: Outcome)
    requires Shape(s)
    ensures r.Ok? ==> Shape(r.state)
    decreases |es|
  {
    if es == [] then Ok(s)
    else
      match Step(s, es[0])
      case Ok(t) => Run(t, es[1..])
      case Panic => Panic
      case Overrun => Overrun
  }

  ghost predicate LawfulRun(s: State, es: seq<Event>)
    requires Shape(s)
    decreases |es|
  {
    es == [] || (Lawful(s, es[0]) && (Step(s, es[0]).Ok? ==> LawfulRun(Step(s, es[0]).state, es[1..])))
  }

  lemma RunUnfold(s: State, es: seq<Event>)
    requires Shape(s) && es != [] && Step(s, es[0]).Ok?
    ensures Run(s, es) == Run(Step(s, es[0]).state, es[1..])
    ensures LawfulRun(s, es) <==> Lawful(s, es[0]) && LawfulRun(Step(s, es[0]).state, es[1..])
  {
  }

  /** Main safety result: a lawful run never panics and ends in a state where everything is still owned. */
  lemma {:induction false} RunSafe(s: State, es: seq<Event>)
    requires Inv(s) && IdleSafe(s) && LawfulRun(s, es)
    ensures Run(s, es).Ok? && Inv(Run(s, es).state) && IdleSafe(Run(s, es).state)
    decreases |es|
  {
    if es != [] {
      LawfulStep(s, es[0]);
      RunUnfold(s, es);
      RunSafe(Step(s, es[0]).state, es[1..]);
    }
  }

  /** One more event at the end of a run. */
  lemma {:induction false} EventAtEnd(s: State, es: seq<Event>, e: Event)
    requires Inv(s) && IdleSafe(s) && LawfulRun(s, es) && Run(s, es).Ok? && Inv(Run(s, es).state)
    requires Lawful(Run(s, es).state, e) && Step(Run(s, es).state, e).Ok?
    ensures LawfulRun(s, es + [e]) && Run(s, es + [e]) == Step(Run(s, es).state, e)
    decreases |es|
  {
    hide Placed, StatusAgrees, StacksOwned, SleepersKeyed, ShmsSingle, Step, IdleSafe;
    var all := es + [e];
    if es == [] {
      assert all[0] == e && all[1..] == [];
      RunUnfold(s, all);
    } else {
      LawfulStep(s, es[0]);
      RunUnfold(s, es);
      assert all[0] == es[0] && all[1..] == es[1..] + [e];
      RunUnfold(s, all);
      EventAtEnd(Step(s, es[0]).state, es[1..], e);
    }
  }

  /** One more event in front of a run. */
  lemma EventInFront(s: State, e: Event, es: seq<Event>)
    requires Inv(s) && Lawful(s, e) && Step(s, e).Ok? && LawfulRun(Step(s, e).state, es)
    ensures LawfulRun(s, [e] + es) && Run(s, [e] + es) == Run(Step(s, e).state, es)
  {
    assert ([e] + es)[1..] == es;
    RunUnfold(s, [e] + es);
  }

  // -------- Initialisation --------

  const EMPTY_SIO := Sio([], 0, [], 0, false, [])

  /** After _q_init, _pcb_init, _stack_init, _sio_init, _clock_init and _shm_init. */
  ghost function Pristine(): (s: State)
    ensures Shape(s)
  {
    State(seq(MAX_PROCS, _ => CLEAR_PCB), 0,
          [[], [], [], [], [], ALL_IDS, ALL_IDS, [0, 1, 2, 3]],
          [], 0, 0, [], EMPTY_SIO)
  }

  /** One of the three creations in _init. */
  ghost function Create(s: State, level: nat): (r: State)
    requires Shape(s) && s.q[FREE_PCBS] != [] && s.q[FREE_STACKS] != []
    ensures Shape(r)
  {
    Schedule(NewProc(s, level), s.q[FREE_PCBS][0])
  }

  lemma PristineCore()
    ensures Core(Pristine(), {})
  {
    hide Ids;
    var s := Pristine();
    forall x: Id ensures Occurrences(s, x) + (if x in {} then 1 else 0) == 1 && x in s.q[FREE_PCBS] {
      AllIdsOnce(x);
      assert ALL_IDS[x] == x;
    }
  }

  lemma CreateCore(s: State, level: nat)
    requires Core(s, {}) && s.q[FREE_PCBS] != [] && level < MLQ_LEVELS
    ensures s.q[FREE_STACKS] != []
    ensures var r, x := Create(s, level), s.q[FREE_PCBS][0];
            && Core(r, {}) && r.io == s.io && r.q[FREE_PCBS] == s.q[FREE_PCBS][1..]
            && r.q[level] == s.q[level] + [x] && r.pcbs[x].status == Ready
            && r.pcbs[x].pid == s.nextPid && r.pcbs[x].level == level && r.nextPid == (s.nextPid + 1) % HALF
            && r.q[READING] == s.q[READING]
            && (forall l :: 0 <= l < MLQ_LEVELS && l != level ==> r.q[l] == s.q[l])
            && (forall y: Id :: y != x ==> r.pcbs[y] == s.pcbs[y])
  {
    var x := s.q[FREE_PCBS][0];
    CoreNewProc(s, {}, level);
    assert {} + {x} - {x} == {};
    CoreSchedule(NewProc(s, level), {} + {x}, x);
  }

  ghost function Loaded(): (s: State)
    ensures Shape(s) && Core(s, {}) && s.io == EMPTY_SIO && s.q[READING] == []
    ensures s.q[0] == [] && s.q[1] == [1, 2] && s.q[2] == [0]
    ensures s.pcbs[0].status == s.pcbs[1].status == Ready
    ensures s.pcbs[0].pid == 0 && s.pcbs[0].level == LEVEL_LOW
  {
    LoadingSteps();
    Create(Create(Create(Pristine(), LEVEL_LOW), LEVEL_DEFAULT), LEVEL_DEFAULT)
  }

  /** The idle process, the first user process and the disk test are created one after the other. */
  lemma LoadingSteps()
    ensures Creatable(Pristine())
    ensures var s1 := Create(Pristine(), LEVEL_LOW); Creatable(s1)
    ensures var s2 := Create(Create(Pristine(), LEVEL_LOW), LEVEL_DEFAULT); Creatable(s2)
    ensures var s := Create(Create(Create(Pristine(), LEVEL_LOW), LEVEL_DEFAULT), LEVEL_DEFAULT);
            && Core(s, {}) && s.io == EMPTY_SIO && s.q[READING] == []
            && s.q[0] == [] && s.q[1] == [1, 2] && s.q[2] == [0]
            && s.pcbs[0].status == s.pcbs[1].status == Ready && s.pcbs[0].pid == 0 && s.pcbs[0].level == LEVEL_LOW
  {
    hide Placed, StatusAgrees, StacksOwned, SleepersKeyed, ShmsSingle, Create, Ids, Schedule, NewProc;
    PristineCore();
    assert ALL_IDS[0] == 0 && ALL_IDS[1..][0] == 1 && ALL_IDS[1..][1..][0] == 2;
    CreateCore(Pristine(), LEVEL_LOW);
    var s1 := Create(Pristine(), LEVEL_LOW);
    CreateCore(s1, LEVEL_DEFAULT);
    var s2 := Create(s1, LEVEL_DEFAULT);
    CreateCore(s2, LEVEL_DEFAULT);
  }

  /** A state in which _init finds a free PCB and a free stack. */
  ghost predicate Creatable(s: State) {
    Core(s, {}) && s.q[FREE_PCBS] != [] && s.q[FREE_STACKS] != []
  }

  /** _init: the first user process runs, and the invariant holds. */
  ghost function Boot(): (r: Outcome)
    ensures r.Ok? && Shape(r.state)
    ensures Inv(r.state) && IdleSafe(r.state) && r.state.current == 1
  {
    BootDispatches();
    Dispatch(Loaded())
  }

  lemma BootDispatches()
    ensures var r := Dispatch(Loaded());
            r.Ok? && Inv(r.state) && IdleSafe(r.state) && r.state.current == 1
  {
    hide Placed, StatusAgrees, StacksOwned, SleepersKeyed, ShmsSingle, Create, Loaded;
    var s := Loaded();
    assert 0 in s.q[2];
    assert AnyReady(s, 0);
    DispatchInv(s);
    ReadyAfterDispatch(s, {}, 0, LEVEL_LOW);
    assert DispatchFrom(s, 0) == DispatchFrom(s, 1);
  }

  /** Every lawful run of the machine from power-up is free of panics, and all its states are well owned. */
  lemma BootedRunSafe(es: seq<Event>)
    requires LawfulRun(Boot().state, es)
    ensures Run(Boot().state, es).Ok? && Inv(Run(Boot().state, es).state)
  {
    RunSafe(Boot().state, es);
  }
}
