/** What the dispatcher's loop amounts to: it reaps the zombies ahead of the first ready process and runs that one. */
module Dispatching {
  import opened QueuePool
  import opened KernelModel
  import opened Ownership

  /** Entry `k` of level `l` is the first ready one, in level-then-FIFO order from level `from` on, after zombies. */
  ghost predicate PicksFrom(s: State, from: nat, l: nat, k: nat)
    requires Shape(s)
  {
    && from <= l < MLQ_LEVELS && k < |s.q[l]|
    && s.pcbs[s.q[l][k]].status == Ready
    && (forall m, x :: from <= m < l && x in s.q[m] ==> s.pcbs[x].status == Zombie)
    && (forall j :: 0 <= j < k ==> s.pcbs[s.q[l][j]].status == Zombie)
  }

  ghost predicate Picks(s: State, l: nat, k: nat)
    requires Shape(s)
  {
    PicksFrom(s, 0, l, k)
  }

  /** Everything queued ahead of entry `k` of level `l`, in order. */
  ghost function Ahead(s: State, from: nat, l: nat, k: nat): seq<Id>
    requires Shape(s) && from <= l < MLQ_LEVELS && k <= |s.q[l]|
    decreases l - from
  {
    if from == l then s.q[l][..k] else s.q[from] + Ahead(s, from + 1, l, k)
  }

  ghost function StacksOf(pcbs: seq<Pcb>, xs: seq<Id>): seq<Id>
    requires Holding(pcbs, xs)
  {
    seq(|xs|, j requires 0 <= j < |xs| => pcbs[xs[j]].stack.index)
  }

  ghost predicate Holding(pcbs: seq<Pcb>, xs: seq<Id>) {
    |pcbs| == MAX_PROCS && forall j :: 0 <= j < |xs| ==> pcbs[xs[j]].stack.StackAt?
  }

  /**
   * `r` is `s` after a dispatch, stated without a loop: the processes `xs` ahead of entry `k` of level `l`
   * are back in the pools with their stacks, in order, that entry has the CPU, and nothing else changed.
   */
  ghost predicate Reaped(s: State, r: State, from: nat, l: nat, k: nat, xs: seq<Id>)
    requires Shape(s) && from <= l < MLQ_LEVELS && k < |s.q[l]| && Holding(s.pcbs, xs)
  {
    && r == s.(q := r.q, pcbs := r.pcbs, current := s.q[l][k])
    && |r.q| == QUEUES && |r.pcbs| == MAX_PROCS
    && (forall i :: from <= i < l ==> r.q[i] == [])
    && r.q[l] == s.q[l][k + 1..]
    && (forall i :: 0 <= i < QUEUES && !(from <= i <= l) && i != FREE_PCBS && i != FREE_STACKS ==> r.q[i] == s.q[i])
    && r.q[FREE_PCBS] == s.q[FREE_PCBS] + xs
    && r.q[FREE_STACKS] == s.q[FREE_STACKS] + StacksOf(s.pcbs, xs)
    && (forall y: Id :: r.pcbs[y] ==
          if y == r.current then s.pcbs[y].(status := Running, quantum := QUANTUM_DEFAULT)
          else if y in xs then s.pcbs[y].(status := Free)
          else s.pcbs[y])
  }

  lemma {:induction false} AheadHeld(s: State, out: set<Id>, from: nat, l: nat, k: nat)
    requires Core(s, out) && from <= l < MLQ_LEVELS && k <= |s.q[l]|
    ensures forall x :: x in Ahead(s, from, l, k) ==>
              s.pcbs[x].stack.StackAt? && (exists m :: from <= m <= l && x in s.q[m])
    decreases l - from
  {
    forall m, x | from <= m <= l && x in s.q[m] ensures s.pcbs[x].stack.StackAt? {
      OnOneQueue(s, out, m, x);
    }
    if from < l {
      AheadHeld(s, out, from + 1, l, k);
    }
  }

  /** One turn of the loop: the zombie at the head of level `from` goes back to the pools. */
  ghost predicate Turn(s: State, r: State, from: nat, x: Id, stack: Id)
    requires Shape(s) && Shape(r)
  {
    && from < MLQ_LEVELS && s.q[from] == [x] + r.q[from] && s.pcbs[x].stack == StackAt(stack)
    && (forall i :: 0 <= i < QUEUES && i !in {from, FREE_PCBS, FREE_STACKS} ==> r.q[i] == s.q[i])
    && r.q[FREE_PCBS] == s.q[FREE_PCBS] + [x]
    && r.q[FREE_STACKS] == s.q[FREE_STACKS] + [stack]
    && r.pcbs == s.pcbs[x := s.pcbs[x].(status := Free)]
    && r == s.(q := r.q, pcbs := r.pcbs)
  }

  lemma ReapIsTurn(s: State, out: set<Id>, from: nat)
    requires Core(s, out) && from < MLQ_LEVELS && s.q[from] != []
    ensures var x := s.q[from][0]; var r := Cleanup(Take(s, from), x);
            && Core(r, out) && s.pcbs[x].stack.StackAt? && Turn(s, r, from, x, s.pcbs[x].stack.index)
            && forall m :: 0 <= m < MLQ_LEVELS ==> x !in r.q[m]
  {
    var x, s1 := s.q[from][0], Take(s, from);
    CoreTake(s, out, from);
    CoreCleanup(s1, out + {x}, x);
    assert out + {x} - {x} == out;
    HeldIsOffQueues(s1, out + {x}, x);
  }

  lemma TurnShifts(s: State, r: State, from: nat, x: Id, stack: Id, l: nat, k: nat, k': nat)
    requires Shape(s) && Shape(r) && Turn(s, r, from, x, stack) && from <= l < MLQ_LEVELS && k < |s.q[l]|
    requires (from == l ==> k > 0) && k' == if from == l then k - 1 else k
    ensures k' < |r.q[l]| && s.q[l][k] == r.q[l][k'] && s.q[l][..k] == (if from == l then [x] else []) + r.q[l][..k']
  {
  }

  lemma TurnShiftsAhead(s: State, r: State, from: nat, x: Id, stack: Id, l: nat, k: nat, k': nat)
    requires Shape(s) && Shape(r) && Turn(s, r, from, x, stack) && from <= l < MLQ_LEVELS && k < |s.q[l]|
    requires (from == l ==> k > 0) && k' == (if from == l then k - 1 else k) <= |r.q[l]|
    requires from == l ==> s.q[l][..k] == [x] + r.q[l][..k']
    ensures Ahead(s, from, l, k) == [x] + Ahead(r, from, l, k')
  {
    if from < l {
      AheadSame(s, r, from + 1, l, k);
      assert s.q[from] + Ahead(s, from + 1, l, k) == [x] + (r.q[from] + Ahead(s, from + 1, l, k));
    }
  }

  lemma TurnKeepsPick(s: State, r: State, from: nat, x: Id, stack: Id, l: nat, k: nat, k': nat)
    requires Shape(s) && Shape(r) && Turn(s, r, from, x, stack) && PicksFrom(s, from, l, k)
    requires (from == l ==> k > 0) && k' == if from == l then k - 1 else k
    requires forall m :: 0 <= m < MLQ_LEVELS ==> x !in r.q[m]
    ensures PicksFrom(r, from, l, k') && s.q[l][k] == r.q[l][k'] && s.q[l][k] != x
    ensures Ahead(s, from, l, k) == [x] + Ahead(r, from, l, k')
  {
    TurnShifts(s, r, from, x, stack, l, k, k');
    TurnShiftsAhead(s, r, from, x, stack, l, k, k');
    assert r.q[l][k'] in r.q[l];
    forall m, y | from <= m < l && y in r.q[m] ensures r.pcbs[y].status == Zombie {
      assert y in s.q[m];
    }
    forall j | 0 <= j < k' ensures r.pcbs[r.q[l][j]].status == Zombie {
      var i := if from == l then j + 1 else j;
      assert s.q[l][..k][i] == r.q[l][..k'][j] == s.q[l][i];
    }
  }

  lemma {:induction false} AheadSame(s: State, r: State, from: nat, l: nat, k: nat)
    requires Shape(s) && Shape(r) && l < MLQ_LEVELS && k <= |s.q[l]|
    requires forall m :: from <= m <= l ==> r.q[m] == s.q[m]
    ensures from <= l ==> Ahead(r, from, l, k) == Ahead(s, from, l, k)
    decreases l - from
  {
    if from < l {
      AheadSame(s, r, from + 1, l, k);
    }
  }

  lemma TurnThenReaped(s: State, t: State, r: State, from: nat, x: Id, stack: Id, l: nat, k: nat, k': nat, ys: seq<Id>)
    requires Shape(s) && Shape(t) && Turn(s, t, from, x, stack) && from <= l < MLQ_LEVELS && k < |s.q[l]|
    requires (from == l ==> k > 0) && k' == if from == l then k - 1 else k
    requires s.q[l][k] == t.q[l][k'] != x && Holding(t.pcbs, ys)
    requires Reaped(t, r, from, l, k', ys)
    ensures Holding(s.pcbs, [x] + ys) && Reaped(s, r, from, l, k, [x] + ys)
  {
    assert StacksOf(s.pcbs, [x] + ys) == [stack] + StacksOf(t.pcbs, ys);
    assert t.q[l][k' + 1..] == s.q[l][k + 1..];
  }

  lemma ReapedAtOnce(s: State, l: nat)
    requires Shape(s) && l < MLQ_LEVELS && s.q[l] != []
    ensures Reaped(s, GiveCpu(Take(s, l), s.q[l][0]), l, l, 0, [])
  {
  }

  lemma ReapThenReaped(s: State, out: set<Id>, from: nat, l: nat, k: nat, k': nat)
    requires Core(s, out) && PicksFrom(s, from, l, k) && s.q[from] != []
    requires (from == l ==> k > 0) && k' == if from == l then k - 1 else k
    ensures s.pcbs[s.q[from][0]].status == Zombie
    ensures var t := Cleanup(Take(s, from), s.q[from][0]);
            && Core(t, out) && PicksFrom(t, from, l, k')
            && forall r ::
                 Holding(t.pcbs, Ahead(t, from, l, k')) && Reaped(t, r, from, l, k', Ahead(t, from, l, k')) ==>
                 Holding(s.pcbs, Ahead(s, from, l, k)) && Reaped(s, r, from, l, k, Ahead(s, from, l, k))
  {
    var x := s.q[from][0];
    assert x in s.q[from];
    var t := Cleanup(Take(s, from), x);
    ReapIsTurn(s, out, from);
    var stack := s.pcbs[x].stack.index;
    TurnKeepsPick(s, t, from, x, stack, l, k, k');
    var ys := Ahead(t, from, l, k');
    forall r | Holding(t.pcbs, ys) && Reaped(t, r, from, l, k', ys)
      ensures Holding(s.pcbs, [x] + ys) && Reaped(s, r, from, l, k, [x] + ys)
    {
      TurnThenReaped(s, t, r, from, x, stack, l, k, k', ys);
    }
  }

  lemma ReapedWiden(s: State, r: State, from: nat, l: nat, k: nat, xs: seq<Id>)
    requires Shape(s) && from < l < MLQ_LEVELS && k < |s.q[l]| && Holding(s.pcbs, xs)
    requires s.q[from] == [] && Reaped(s, r, from + 1, l, k, xs)
    ensures Reaped(s, r, from, l, k, xs) && Ahead(s, from, l, k) == Ahead(s, from + 1, l, k)
  {
  }

  /** Main result for _dispatch: the loop computes exactly `Reaped`. */
  lemma {:induction false} DispatchPicks(s: State, out: set<Id>, from: nat, l: nat, k: nat)
    requires Core(s, out) && PicksFrom(s, from, l, k)
    ensures var xs, r := Ahead(s, from, l, k), DispatchFrom(s, from);
            Holding(s.pcbs, xs) && r.Ok? && Reaped(s, r.state, from, l, k, xs)
    decreases MLQ_LEVELS - from, |s.q[from]|
  {
    hide Placed, StatusAgrees, StacksOwned, SleepersKeyed, ShmsSingle, Reaped;
    if s.q[from] == [] {
      DispatchPicks(s, out, from + 1, l, k);
      ReapedWiden(s, DispatchFrom(s, from + 1).state, from, l, k, Ahead(s, from + 1, l, k));
    } else if from == l && k == 0 {
      ReapedAtOnce(s, l);
    } else {
      var k' := if from == l then k - 1 else k;
      ReapThenReaped(s, out, from, l, k, k');
      DispatchPicks(Cleanup(Take(s, from), s.q[from][0]), out, from, l, k');
    }
  }

  lemma DispatchStarts(s: State)
    requires Shape(s)
    ensures Dispatch(s) == DispatchFrom(s, 0)
  {
  }

  // -------- When the dispatcher finds nobody --------

  ghost predicate AnyReady(s: State, from: nat)
    requires Shape(s)
  {
    exists m, x :: from <= m < MLQ_LEVELS && x in s.q[m] && s.pcbs[x].status == Ready
  }

  /** The first ready entry of a line that has one. */
  lemma FirstReady(s: State, out: set<Id>, from: nat) returns (l: nat, k: nat)
    requires Core(s, out) && AnyReady(s, from)
    ensures PicksFrom(s, from, l, k)
  {
    l, k := from, 0;
    while k == |s.q[l]| || s.pcbs[s.q[l][k]].status != Ready
      invariant from <= l < MLQ_LEVELS && k <= |s.q[l]|
      invariant forall m, x :: from <= m < l && x in s.q[m] ==> s.pcbs[x].status == Zombie
      invariant forall j :: 0 <= j < k ==> s.pcbs[s.q[l][j]].status == Zombie
      decreases MLQ_LEVELS - l, |s.q[l]| - k
    {
      if k == |s.q[l]| {
        assert forall x :: x in s.q[l] ==> s.pcbs[x].status == Zombie;
        assert l + 1 < MLQ_LEVELS;
        l, k := l + 1, 0;
      } else {
        assert s.q[l][k] in s.q[l];
        k := k + 1;
      }
    }
  }

  lemma {:induction false} PanicsWithNoneReady(s: State, out: set<Id>, from: nat)
    requires Core(s, out) && !AnyReady(s, from)
    ensures DispatchFrom(s, from) == Panic
    decreases MLQ_LEVELS - from, if from < MLQ_LEVELS then |s.q[from]| else 0
  {
    if from < MLQ_LEVELS {
      if s.q[from] == [] {
        PanicsWithNoneReady(s, out, from + 1);
      } else {
        var x := s.q[from][0];
        assert x in s.q[from];
        var t := Cleanup(Take(s, from), x);
        ReapIsTurn(s, out, from);
        assert forall m, y :: from <= m < MLQ_LEVELS && y in t.q[m] ==> y in s.q[m];
        PanicsWithNoneReady(t, out, from);
      }
    }
  }

  /** Neither panic of _dispatch is reachable exactly when some queued process is ready. */
  lemma DispatchPanicsIff(s: State, out: set<Id>)
    requires Core(s, out)
    ensures Dispatch(s) == Panic <==> !AnyReady(s, 0)
    ensures Dispatch(s).Ok? <==> AnyReady(s, 0)
  {
    if AnyReady(s, 0) {
      var l, k := FirstReady(s, out, 0);
      DispatchPicks(s, out, 0, l, k);
    } else {
      PanicsWithNoneReady(s, out, 0);
    }
  }

  lemma GivenCpu(s: State, out: set<Id>, from: nat)
    requires Core(s, out) && from < MLQ_LEVELS && s.q[from] != [] && s.pcbs[s.q[from][0]].status == Ready
    ensures var x := s.q[from][0]; var r := GiveCpu(Take(s, from), x);
            Core(r, out + {x}) && x !in out && s.pcbs[x].level < MLQ_LEVELS
  {
    var x, t := s.q[from][0], Take(s, from);
    assert x in s.q[from];
    CoreTake(s, out, from);
    CoreSetPcb(t, out + {x}, x, t.pcbs[x].(status := Running, quantum := QUANTUM_DEFAULT));
    CoreCurrent(SetPcb(t, x, t.pcbs[x].(status := Running, quantum := QUANTUM_DEFAULT)), out + {x}, x);
  }

  lemma CoreCurrent(s: State, out: set<Id>, x: Id)
    requires Core(s, out)
    ensures Core(s.(current := x), out)
  {
    assert forall y: Id :: Occurrences(s.(current := x), y) == Occurrences(s, y);
  }

  /** A dispatch hands the chosen process over to the CPU and keeps everything else owned. */
  lemma {:induction false} DispatchCore(s: State, out: set<Id>, from: nat)
    requires Core(s, out) && DispatchFrom(s, from).Ok?
    ensures var r := DispatchFrom(s, from).state;
            && Core(r, out + {r.current}) && r.current !in out
            && r.pcbs[r.current].status == Running && r.pcbs[r.current].quantum == QUANTUM_DEFAULT
            && r.pcbs[r.current].level < MLQ_LEVELS
            && r.io == s.io && r.q[READING] == s.q[READING] && r.now == s.now
    decreases MLQ_LEVELS - from, if from < MLQ_LEVELS then |s.q[from]| else 0
  {
    if s.q[from] == [] {
      DispatchCore(s, out, from + 1);
    } else {
      var x := s.q[from][0];
      assert x in s.q[from];
      if s.pcbs[x].status == Ready {
        GivenCpu(s, out, from);
      } else {
        ReapIsTurn(s, out, from);
        DispatchCore(Cleanup(Take(s, from), x), out, from);
      }
    }
  }

  /** The process chosen, in the terms of the queues: the partner of the loop in one statement. */
  lemma DispatchMeans(s: State, out: set<Id>) returns (l: nat, k: nat)
    requires Core(s, out) && Dispatch(s).Ok?
    ensures Picks(s, l, k)
    ensures var xs, r := Ahead(s, 0, l, k), Dispatch(s).state;
            Holding(s.pcbs, xs) && Reaped(s, r, 0, l, k, xs)
  {
    DispatchPanicsIff(s, out);
    l, k := FirstReady(s, out, 0);
    DispatchPicks(s, out, 0, l, k);
  }
}
