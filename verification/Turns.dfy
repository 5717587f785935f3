/** How many dispatches a ready process can be passed over, whatever the events are. */
module Turns {
  import opened QueuePool
  import opened KernelModel
  import opened Ownership
  import opened Dispatching
  import opened Safety
  import opened Lines
  import opened Progress
  import opened Runs
  import opened Spawning
  import opened Waiting

  /** A dispatch that picks nobody more urgent than the level of `x`, and not `x`, picks somebody in front of it. */
  lemma PickedInFront(t: State, x: Id, l: nat, k: nat) returns (k': nat)
    requires Core(t, {}) && Dispatch(t).Ok? && ReadyAt(t, x, l, k)
    requires var r := Dispatch(t).state; r.current != x && r.pcbs[r.current].level >= l
    ensures k' < k && ReadyAt(Dispatch(t).state, x, l, k')
  {
    var m, i := DispatchMeans(t, {});
    var r, y := Dispatch(t).state, t.q[m][i];
    assert y in t.q[m] && x in t.q[l];
    assert m == l && i < k;
    k' := k - i - 1;
    LaterDiffers(t, {}, l, i, l, k);
    NotReaped(t, l, i, k);
    assert r.q[l][k'] == x;
  }

  /** What is behind the process picked is not among the zombies in front of it. */
  lemma NotReaped(t: State, l: nat, i: nat, k: nat)
    requires Core(t, {}) && l < MLQ_LEVELS && i < k < |t.q[l]| && PicksFrom(t, 0, l, i)
    requires t.pcbs[t.q[l][k]].status == Ready
    ensures t.q[l][k] !in Dispatching.Ahead(t, 0, l, i)
  {
    AheadZombies(t, 0, l, i);
  }

  /** One event: the process stays ready, no further behind, and nearer after a dispatch. */
  lemma TurnNearer(s: State, e: Event, x: Id, l: nat, k: nat) returns (k': nat)
    requires Inv(s) && ShmDiscipline(s, e) && Step(s, e).Ok? && ReadyAt(s, x, l, k) && !Marks(s, e, x)
    requires var r := Step(s, e).state; r.current != x && (Dispatches(s, e) ==> r.pcbs[r.current].level >= l)
    ensures k' <= k && ReadyAt(Step(s, e).state, x, l, k') && (Dispatches(s, e) ==> k' < k)
  {
    hide Placed, StatusAgrees, StacksOwned, SleepersKeyed, ShmsSingle, Step, Dispatches;
    var t, d := StepVia(s, e);
    k' := k;
    assert ReadyAt(t, x, l, k);
    if d {
      k' := PickedInFront(t, x, l, k);
    }
  }

  /** The dispatches of a run. */
  ghost function DispatchCount(s: State, es: seq<Event>): nat
    requires Shape(s)
    decreases |es|
  {
    if es == [] then 0
    else
      (if Dispatches(s, es[0]) then 1 else 0)
      + match Step(s, es[0]) case Ok(t) => DispatchCount(t, es[1..]) case _ => 0
  }

  /** No dispatch of this run picks a process more urgent than level `l`. */
  ghost predicate NobodyAbove(s: State, es: seq<Event>, l: nat)
    requires Shape(s)
    decreases |es|
  {
    es == [] ||
    match Step(s, es[0])
    case Ok(t) => (Dispatches(s, es[0]) ==> t.pcbs[t.current].level >= l) && NobodyAbove(t, es[1..], l)
    case _ => true
  }

  /**
   * Bounded waiting for any events: in a lawful run that does not kill it, and in which nobody more urgent is
   * dispatched, a ready process at position `k` of its line is passed over by at most `k` dispatches.
   */
  lemma {:induction false} BoundedTurns(s: State, es: seq<Event>, x: Id, l: nat, k: nat)
    requires Inv(s) && IdleSafe(s) && LawfulRun(s, es) && ReadyAt(s, x, l, k)
    requires PassedOver(s, es, x) && NobodyAbove(s, es, l)
    ensures DispatchCount(s, es) <= k
    decreases |es|
  {
    hide Placed, StatusAgrees, StacksOwned, SleepersKeyed, ShmsSingle, Step, Dispatches, ReadyAt, IdleSafe;
    if es != [] {
      LawfulStep(s, es[0]);
      RunUnfold(s, es);
      var k' := TurnNearer(s, es[0], x, l, k);
      BoundedTurns(Step(s, es[0]).state, es[1..], x, l, k');
    }
  }

  // -------- Time slices --------

  /** A process keeps the CPU for the ticks that are left of its quantum. */
  lemma {:induction false} SliceKept(trace: seq<State>, i: nat)
    requires TickTrace(trace) && i < |trace| && i <= trace[0].pcbs[trace[0].current].quantum
    ensures Inv(trace[i]) && trace[i].current == trace[0].current
    ensures trace[i].pcbs[trace[0].current].quantum == trace[0].pcbs[trace[0].current].quantum - i
    decreases i
  {
    hide Placed, StatusAgrees, StacksOwned, SleepersKeyed, ShmsSingle, Tock;
    if i > 0 {
      SliceSpent(trace[0]);
      TraceTail(trace);
      SliceKept(trace[1..], i - 1);
    }
  }

  lemma SliceSpent(s: State)
    requires Inv(s) && s.pcbs[s.current].quantum > 0
    ensures Tock(s).Ok?
    ensures var r := Tock(s).state;
            r.current == s.current && r.pcbs[s.current].quantum == s.pcbs[s.current].quantum - 1
  {
    hide Placed, StatusAgrees, StacksOwned, SleepersKeyed, ShmsSingle, Wake;
    TickInv(s);
    AwakeExtends(s);
  }

  lemma OthersExtended(s: State, t: State)
    requires Inv(s) && t == Schedule(Wake(s.(now := NextTime(s))), s.current)
    ensures Shape(t)
    ensures OthersReady(s, s.current, s.pcbs[s.current].level) ==>
              OthersReady(t, s.current, s.pcbs[s.current].level)
  {
    hide Placed, StatusAgrees, StacksOwned, SleepersKeyed, ShmsSingle, Wake;
    AwakeExtends(s);
    var w, c, m := Wake(s.(now := NextTime(s))), s.current, s.pcbs[s.current].level;
    if l: nat, x: Id :| l <= m && l < MLQ_LEVELS && x in s.q[l] && x != c && s.pcbs[x].status == Ready {
      assert x in w.q[l] && w.pcbs[x].status == Ready;
      assert x in t.q[l] && t.pcbs[x].status == Ready;
    }
  }

  /** The tick after them takes the CPU away: the process runs again at once, or is the last one in its line. */
  lemma SliceEnds(s: State)
    requires Inv(s) && s.pcbs[s.current].quantum == 0
    ensures Tock(s).Ok?
    ensures var r, c := Tock(s).state, s.current;
            var line := r.q[s.pcbs[c].level];
            if r.current == c then r.pcbs[c].quantum == 2
            else line != [] && line[|line| - 1] == c && r.pcbs[c].status == Ready
    ensures OthersReady(s, s.current, s.pcbs[s.current].level) ==> Tock(s).state.current != s.current
  {
    hide Placed, StatusAgrees, StacksOwned, SleepersKeyed, ShmsSingle, Wake, KernelModel.Dispatch;
    TickInv(s);
    AwakeExtends(s);
    var w := Wake(s.(now := NextTime(s)));
    var t := Schedule(w, w.current);
    CoreSchedule(w, {w.current}, w.current);
    assert {w.current} - {w.current} == {};
    OthersExtended(s, t);
    LastInLine(t, s.current, s.pcbs[s.current].level);
    DispatchStarts(t);
    DispatchCore(t, {}, 0);
  }
}
