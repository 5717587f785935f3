/** What a caller of spawn() can rely on. */
module Spawning {
  import opened QueuePool
  import opened KernelModel
  import opened Ownership
  import opened Dispatching
  import opened Safety
  import opened Lines
  import opened Progress
  import opened Runs

  /** spawn() fails exactly when every PCB is in use: the stack allocation after it cannot fail. */
  lemma SpawnFailsIff(s: State, level: nat)
    requires Inv(s)
    ensures SpawnCall(s, level).Ok?
    ensures SpawnCall(s, level).state.pcbs[s.current].eax == MINUS_ONE <==> s.q[FREE_PCBS] == []
  {
    SpawnInv(s, level);
    if s.q[FREE_PCBS] != [] {
      ParentGetsPid(s, level);
    }
  }

  /** The state from which _spawn dispatches. */
  ghost function Lined(s: State, level: nat): State
    requires Shape(s) && s.q[FREE_PCBS] != [] && s.q[FREE_STACKS] != []
  {
    Schedule(Admit(Child(s, level), s.q[FREE_PCBS][0]), s.current)
  }

  lemma LinedCore(s: State, level: nat)
    requires Inv(s) && s.q[FREE_PCBS] != []
    ensures s.q[FREE_STACKS] != [] && Shape(Lined(s, level)) && Core(Lined(s, level), {})
    ensures SpawnCall(s, level) == Dispatch(Lined(s, level)) && SpawnCall(s, level).Ok?
    ensures Waits(Lined(s, level), s.current, s.pcbs[s.current].level, Ready)
    ensures Lined(s, level).pcbs[s.current].eax == s.nextPid
  {
    hide Placed, StatusAgrees, StacksOwned, SleepersKeyed, ShmsSingle;
    var x := s.q[FREE_PCBS][0];
    ChildCore(s, level);
    AdmitCore(Child(s, level), s.current, x);
    var a := Admit(Child(s, level), x);
    CoreSchedule(a, {s.current}, s.current);
    assert {s.current} - {s.current} == {};
    SpawnInv(s, level);
  }

  lemma ParentGetsPid(s: State, level: nat)
    requires Inv(s) && s.q[FREE_PCBS] != []
    ensures SpawnCall(s, level).Ok? && SpawnCall(s, level).state.pcbs[s.current].eax == s.nextPid
  {
    hide Placed, StatusAgrees, StacksOwned, SleepersKeyed, ShmsSingle;
    LinedCore(s, level);
    var l, k := DispatchMeans(Lined(s, level), {});
  }

  /** The child's place in line, before the dispatch at the end of _spawn. */
  lemma ChildLined(s: State, level: nat)
    requires Inv(s) && s.q[FREE_PCBS] != [] && s.q[FREE_STACKS] != [] && level < MLQ_LEVELS
    requires level <= s.pcbs[s.current].level
    ensures Shape(Lined(s, level)) && Lined(s, level).pcbs[s.q[FREE_PCBS][0]].status == Ready
    ensures Precedes(Lined(s, level), s.q[FREE_PCBS][0], s.current)
  {
    var x, c, t := s.q[FREE_PCBS][0], s.current, Lined(s, level);
    hide Placed, StacksOwned, SleepersKeyed, ShmsSingle;
    var m := s.pcbs[c].level;
    ChildCore(s, level);
    assert At(t, x, level, |s.q[level]|);
    assert At(t, c, m, |t.q[m]| - 1);
  }

  /**
   * A child no less urgent than its parent goes first: after spawn() it has the CPU, or it is ready
   * ahead of the parent.
   */
  lemma ChildFirst(s: State, level: nat)
    requires Inv(s) && s.q[FREE_PCBS] != [] && level < MLQ_LEVELS && level <= s.pcbs[s.current].level
    ensures SpawnCall(s, level).Ok?
    ensures var r, x := SpawnCall(s, level).state, s.q[FREE_PCBS][0];
            r.current == x || (r.current != s.current && Precedes(r, x, s.current) && r.pcbs[x].status == Ready)
  {
    LinedCore(s, level);
    ChildLined(s, level);
    var t, x := Lined(s, level), s.q[FREE_PCBS][0];
    var l: nat, i: nat, m: nat, j: nat :| At(t, x, l, i) && At(t, s.current, m, j) && (l < m || (l == m && i < j));
    assert Waits(t, x, l, Ready);
    OrderAfterDispatch(t, {}, x, s.current);
    ReadyAfterDispatch(t, {}, x, l);
  }

  /** Along this run, `x` is neither killed nor given the CPU. */
  ghost predicate PassedOver(s: State, es: seq<Event>, x: Id)
    requires Shape(s)
    decreases |es|
  {
    s.current != x &&
    (es == [] || (!Marks(s, es[0], x) && (Step(s, es[0]).Ok? ==> PassedOver(Step(s, es[0]).state, es[1..], x))))
  }

  /** As long as a ready process is neither killed nor run, no run can let a process behind it have the CPU. */
  lemma {:induction false} NeverOvertaken(s: State, es: seq<Event>, x: Id, y: Id)
    requires Inv(s) && IdleSafe(s) && LawfulRun(s, es) && PassedOver(s, es, x)
    requires Precedes(s, x, y) && s.pcbs[x].status == Ready && s.current != y
    ensures Run(s, es).Ok? && Run(s, es).state.current != y
    decreases |es|
  {
    if es != [] {
      LawfulStep(s, es[0]);
      RunUnfold(s, es);
      OrderStays(s, es[0], x, y);
      NeverOvertaken(Step(s, es[0]).state, es[1..], x, y);
    }
  }

  /** After spawn(), the parent does not run again before a child at least as urgent has run, unless it is killed. */
  lemma ParentWaitsForChild(s: State, level: nat, r: State, es: seq<Event>)
    requires Inv(s) && IdleSafe(s) && s.q[FREE_PCBS] != []
    requires level % 256 < MLQ_LEVELS && level % 256 <= s.pcbs[s.current].level
    requires Step(s, Spawn(level)) == Ok(r) && LawfulRun(r, es) && PassedOver(r, es, s.q[FREE_PCBS][0])
    ensures Run(r, es).Ok? && Run(r, es).state.current != s.current
  {
    hide Placed, StatusAgrees, StacksOwned, SleepersKeyed, ShmsSingle;
    ChildFirst(s, level % 256);
    LawfulStep(s, Spawn(level));
    NeverOvertaken(r, es, s.q[FREE_PCBS][0], s.current);
  }

  lemma LeakedLined(s: State, level: nat)
    requires Inv(s) && s.q[FREE_PCBS] != [] && s.q[FREE_STACKS] != []
    ensures Lined(s, level).leaked == if level >= MLQ_LEVELS then s.leaked + [s.q[FREE_PCBS][0]] else s.leaked
  {
    ChildCore(s, level);
  }

  /** A spawn takes a PCB out of circulation for good exactly when one is free and the level byte is bad. */
  lemma SpawnLeaksIff(s: State, level: nat)
    requires Inv(s)
    ensures SpawnCall(s, level).Ok?
    ensures SpawnCall(s, level).state.leaked ==
            if s.q[FREE_PCBS] != [] && level >= MLQ_LEVELS then s.leaked + [s.q[FREE_PCBS][0]] else s.leaked
  {
    SpawnInv(s, level);
    if s.q[FREE_PCBS] != [] {
      LinedCore(s, level);
      LeakedLined(s, level);
      var l, k := DispatchMeans(Lined(s, level), {});
    }
  }
}
