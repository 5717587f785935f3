/** What becomes of a process that waits on a ready queue: it keeps its turn until it runs or is reaped. */
module Progress {
  import opened QueuePool
  import opened KernelModel
  import opened Ownership
  import opened Dispatching
  import opened Safety
  import opened Lines

  /** Process `x` waits, ready or killed, on queue `l`. */
  ghost predicate Waits(s: State, x: Id, l: nat, status: ProcStatus)
    requires Shape(s)
  {
    l < MLQ_LEVELS && x in s.q[l] && s.pcbs[x].status == status
  }

  ghost predicate At(s: State, x: Id, l: nat, i: nat)
    requires Shape(s)
  {
    l < MLQ_LEVELS && i < |s.q[l]| && s.q[l][i] == x
  }

  /** Both wait, and `x` comes first in level-then-FIFO order. */
  ghost predicate Precedes(s: State, x: Id, y: Id)
    requires Shape(s)
  {
    exists l: nat, i: nat, m: nat, j: nat :: At(s, x, l, i) && At(s, y, m, j) && (l < m || (l == m && i < j))
  }

  /** The process is back in the pools, and its stack with it. */
  ghost predicate Returned(s: State, r: State, x: Id)
    requires Shape(s) && Shape(r)
  {
    && x in r.q[FREE_PCBS] && r.pcbs[x].status == Free
    && s.pcbs[x].stack.StackAt? && s.pcbs[x].stack.index in r.q[FREE_STACKS]
  }

  lemma {:induction false} AheadZombies(s: State, from: nat, l: nat, k: nat)
    requires Shape(s) && PicksFrom(s, from, l, k)
    ensures forall y :: y in Ahead(s, from, l, k) ==> s.pcbs[y].status == Zombie
    decreases l - from
  {
    if from < l {
      AheadZombies(s, from + 1, l, k);
    } else {
      assert forall y :: y in s.q[l][..k] ==> exists j :: 0 <= j < k && s.q[l][j] == y;
    }
  }

  lemma {:induction false} InAhead(s: State, from: nat, l: nat, k: nat, m: nat, i: nat)
    requires Shape(s) && from <= m <= l < MLQ_LEVELS && k <= |s.q[l]| && i < |s.q[m]| && (m == l ==> i < k)
    ensures s.q[m][i] in Ahead(s, from, l, k)
    decreases l - from
  {
    if from == l {
      assert s.q[l][i] == s.q[l][..k][i];
    } else if m > from {
      InAhead(s, from + 1, l, k, m, i);
    }
  }

  /** A dispatch either runs a ready process or leaves it queued as it was. */
  lemma ReadyAfterReaped(s: State, r: State, l: nat, k: nat, m: nat, i: nat)
    requires Shape(s) && Shape(r) && Picks(s, l, k) && m < MLQ_LEVELS && i < |s.q[m]|
    requires Holding(s.pcbs, Ahead(s, 0, l, k)) && Reaped(s, r, 0, l, k, Ahead(s, 0, l, k))
    requires s.pcbs[s.q[m][i]].status == Ready && s.q[m][i] != s.q[l][k]
    ensures m > l || (m == l && i > k)
    ensures At(r, s.q[m][i], m, if m == l then i - k - 1 else i)
    ensures r.pcbs[s.q[m][i]] == s.pcbs[s.q[m][i]]
  {
    AheadZombies(s, 0, l, k);
    assert s.q[m][i] in s.q[m];
  }

  lemma ZombieAfterReaped(s: State, r: State, l: nat, k: nat, m: nat, i: nat)
    requires Shape(s) && Shape(r) && Picks(s, l, k) && m < MLQ_LEVELS && i < |s.q[m]|
    requires Holding(s.pcbs, Ahead(s, 0, l, k)) && Reaped(s, r, 0, l, k, Ahead(s, 0, l, k))
    requires s.pcbs[s.q[m][i]].status == Zombie
    ensures var x := s.q[m][i];
            r.current != x && (Returned(s, r, x) || (Waits(r, x, m, Zombie) && r.pcbs[x] == s.pcbs[x]))
  {
    var x, xs := s.q[m][i], Ahead(s, 0, l, k);
    if m < l || (m == l && i < k) {
      InAhead(s, 0, l, k, m, i);
    } else {
      assert x == r.q[m][if m == l then i - k - 1 else i];
    }
    if x in xs {
      var j :| 0 <= j < |xs| && xs[j] == x;
      assert StacksOf(s.pcbs, xs)[j] == s.pcbs[x].stack.index;
      assert StacksOf(s.pcbs, xs)[j] in r.q[FREE_STACKS];
    }
  }

  lemma ReadyAfterDispatch(s: State, out: set<Id>, x: Id, m: nat)
    requires Core(s, out) && Dispatch(s).Ok? && Waits(s, x, m, Ready)
    ensures var r := Dispatch(s).state;
            r.current == x || (Waits(r, x, m, Ready) && r.pcbs[x] == s.pcbs[x])
  {
    var l, k := DispatchMeans(s, out);
    var i :| 0 <= i < |s.q[m]| && s.q[m][i] == x;
    if s.q[l][k] != x {
      ReadyAfterReaped(s, Dispatch(s).state, l, k, m, i);
    }
  }

  lemma ZombieAfterDispatch(s: State, out: set<Id>, x: Id, m: nat)
    requires Core(s, out) && Dispatch(s).Ok? && Waits(s, x, m, Zombie)
    ensures var r := Dispatch(s).state;
            r.current != x && (Returned(s, r, x) || (Waits(r, x, m, Zombie) && r.pcbs[x] == s.pcbs[x]))
  {
    var l, k := DispatchMeans(s, out);
    var i :| 0 <= i < |s.q[m]| && s.q[m][i] == x;
    ZombieAfterReaped(s, Dispatch(s).state, l, k, m, i);
  }

  lemma OrderAfterDispatch(s: State, out: set<Id>, x: Id, y: Id)
    requires Core(s, out) && Dispatch(s).Ok? && Precedes(s, x, y)
    requires s.pcbs[x].status == Ready
    ensures var r := Dispatch(s).state; r.current == x || (r.current != y && Precedes(r, x, y))
  {
    hide Placed, StatusAgrees, StacksOwned, SleepersKeyed, ShmsSingle;
    var l, k := DispatchMeans(s, out);
    var r := Dispatch(s).state;
    var lx: nat, i: nat, ly: nat, j: nat :| At(s, x, lx, i) && At(s, y, ly, j) && (lx < ly || (lx == ly && i < j));
    if s.q[l][k] != x {
      ReadyAfterReaped(s, r, l, k, lx, i);
      assert y != s.q[l][k] by { LaterDiffers(s, out, l, k, ly, j); }
      assert At(r, y, ly, if ly == l then j - k - 1 else j);
    }
  }

  lemma CountsTwice(s: seq<Id>, k: nat, j: nat)
    requires k < j < |s|
    ensures s[k] == s[j] ==> multiset(s)[s[k]] >= 2
  {
    assert s == s[..k] + [s[k]] + s[k + 1..j] + [s[j]] + s[j + 1..];
  }

  lemma LaterDiffers(s: State, out: set<Id>, l: nat, k: nat, m: nat, j: nat)
    requires Core(s, out) && l <= m < MLQ_LEVELS && k < |s.q[l]| && j < |s.q[m]| && (l < m || k < j)
    ensures s.q[m][j] != s.q[l][k]
  {
    assert s.q[l][k] in s.q[l];
    OnOneQueue(s, out, l, s.q[l][k]);
    if l == m {
      CountsTwice(s.q[l], k, j);
    }
  }

  /** Some process other than `c` is ready at level `m` or a more urgent one. */
  ghost predicate OthersReady(s: State, c: Id, m: nat)
    requires Shape(s)
  {
    exists l: nat, x: Id :: l <= m && l < MLQ_LEVELS && x in s.q[l] && x != c && s.pcbs[x].status == Ready
  }

  /** The last in a line is only picked when nobody else is ready there or above. */
  lemma LastIsPicked(t: State, c: Id, l: nat, k: nat, m: nat)
    requires Core(t, {}) && Picks(t, l, k) && t.q[l][k] == c && m < MLQ_LEVELS && t.q[m] != []
    requires t.q[m][|t.q[m]| - 1] == c
    ensures !OthersReady(t, c, m)
  {
    hide StacksOwned, SleepersKeyed, ShmsSingle;
    assert c in t.q[l] && c in t.q[m];
    if k < |t.q[m]| - 1 {
      LaterDiffers(t, {}, l, k, m, |t.q[m]| - 1);
    }
  }

  /** Whoever is last and ready in a line runs after the dispatch or is still last. */
  lemma LastInLine(t: State, c: Id, m: nat)
    requires Core(t, {}) && Dispatch(t).Ok? && m < MLQ_LEVELS && t.q[m] != [] && t.q[m][|t.q[m]| - 1] == c
    requires t.pcbs[c].status == Ready
    ensures var r := Dispatch(t).state;
            r.current == c || (r.q[m] != [] && r.q[m][|r.q[m]| - 1] == c && r.pcbs[c].status == Ready)
    ensures (forall l :: 0 <= l < MLQ_LEVELS ==> t.q[l] == if l == m then [c] else []) ==>
              Dispatch(t).state.current == c
    ensures OthersReady(t, c, m) ==> Dispatch(t).state.current != c
  {
    var l, k := DispatchMeans(t, {});
    assert t.q[l][k] in t.q[l] && c in t.q[m];
    if t.q[l][k] == c && OthersReady(t, c, m) {
      LastIsPicked(t, c, l, k, m);
    }
    if t.q[l][k] != c {
      ReadyAfterReaped(t, Dispatch(t).state, l, k, m, |t.q[m]| - 1);
    }
  }

  // -------- Over one step of any kind --------

  /** A ready process that the step does not kill runs next or stays where it was. */
  lemma ReadyStays(s: State, e: Event, x: Id, m: nat)
    requires Inv(s) && ShmDiscipline(s, e) && Step(s, e).Ok? && Waits(s, x, m, Ready) && !Marks(s, e, x)
    ensures var r := Step(s, e).state;
            || (r.current == x && r.pcbs[x].pid == s.pcbs[x].pid && r.pcbs[x].level == s.pcbs[x].level)
            || (r.current != x && Waits(r, x, m, Ready) && r.pcbs[x] == s.pcbs[x])
  {
    var t, d := StepVia(s, e);
    StepInv(s, e);
    assert Waits(t, x, m, Ready);
    if d {
      ReadyAfterDispatch(t, {}, x, m);
      if Dispatch(t).state.current == x {
        var l, k := DispatchMeans(t, {});
      }
    } else {
      OnOneQueue(s, {s.current}, m, x);
    }
  }

  /** A killed process on a ready queue never gets the CPU: it stays there, dead, until it is reaped. */
  lemma ZombieStays(s: State, e: Event, x: Id, m: nat)
    requires Inv(s) && ShmDiscipline(s, e) && Step(s, e).Ok? && Waits(s, x, m, Zombie)
    ensures var r := Step(s, e).state;
            r.current != x && (Returned(s, r, x) || (Waits(r, x, m, Zombie) && r.pcbs[x] == s.pcbs[x]))
  {
    var t, d := StepVia(s, e);
    assert Waits(t, x, m, Zombie) && t.pcbs[x] == s.pcbs[x];
    if d {
      ZombieAfterDispatch(t, {}, x, m);
    } else {
      OnOneQueue(s, {s.current}, m, x);
    }
  }

  /** No step lets `y` overtake a ready `x` that it does not kill. */
  lemma OrderStays(s: State, e: Event, x: Id, y: Id)
    requires Inv(s) && ShmDiscipline(s, e) && Step(s, e).Ok? && !Marks(s, e, x)
    requires Precedes(s, x, y) && s.pcbs[x].status == Ready
    ensures var r := Step(s, e).state;
            r.current == x || (r.current != y && Precedes(r, x, y) && r.pcbs[x].status == Ready)
  {
    var l: nat, i: nat, m: nat, j: nat :| At(s, x, l, i) && At(s, y, m, j) && (l < m || (l == m && i < j));
    assert Waits(s, x, l, Ready);
    ReadyStays(s, e, x, l);
    var t, d := StepVia(s, e);
    OrderExtended(s, t, e, x, y);
    if d {
      OrderAfterDispatch(t, {}, x, y);
    }
  }

  lemma OrderExtended(s: State, t: State, e: Event, x: Id, y: Id)
    requires Inv(s) && Shape(t) && Extends(s, t, e) && !Marks(s, e, x)
    requires Precedes(s, x, y) && s.pcbs[x].status == Ready
    ensures Precedes(t, x, y) && t.pcbs[x].status == Ready && s.current != y
  {
    var l: nat, i: nat, m: nat, j: nat :| At(s, x, l, i) && At(s, y, m, j) && (l < m || (l == m && i < j));
    assert x in s.q[l] && y in s.q[m];
    OnOneQueue(s, {s.current}, m, y);
    assert At(t, x, l, i) && At(t, y, m, j);
  }

  /** A current process that does not leave keeps the CPU or waits, ready, at its own level. */
  lemma CurrentStays(s: State, e: Event)
    requires Inv(s) && ShmDiscipline(s, e) && Step(s, e).Ok? && !Leaves(s, e)
    ensures var c, r := s.current, Step(s, e).state;
            && r.pcbs[c].pid == s.pcbs[c].pid && r.pcbs[c].level == s.pcbs[c].level
            && (r.current == c || Waits(r, c, s.pcbs[c].level, Ready))
  {
    match e {
      case Tick =>
        AwakeExtends(s);
        YieldStays(s, e, Wake(s.(now := NextTime(s))));
      case Spawn(level) => SpawnerStays(s, level);
      case Sleep(num) => YieldStays(s, e, s);
      case Receive(ch) => ReceiverStays(s, ch);
      case _ =>
    }
  }

  lemma SpawnerStays(s: State, level: nat)
    requires Inv(s) && Step(s, Spawn(level)).Ok?
    ensures var c, r := s.current, Step(s, Spawn(level)).state;
            && r.pcbs[c].pid == s.pcbs[c].pid && r.pcbs[c].level == s.pcbs[c].level
            && (r.current == c || Waits(r, c, s.pcbs[c].level, Ready))
  {
    if s.q[FREE_PCBS] != [] {
      var u, x := Child(s, level % 256), s.q[FREE_PCBS][0];
      ChildCore(s, level % 256);
      AdmitCore(u, s.current, x);
      YieldStays(s, Spawn(level), Admit(u, x));
    }
  }

  lemma ReceiverStays(s: State, ch: nat)
    requires Inv(s) && ReceiveByte(s, ch).Ok?
    ensures var c, r := s.current, ReceiveByte(s, ch).state; r.current == c && r.pcbs[c] == s.pcbs[c]
  {
    if s.q[READING] != [] {
      assert s.q[READING][0] in s.q[READING];
      OnOneQueue(s, {s.current}, READING, s.q[READING][0]);
    }
  }

  lemma YieldStays(s: State, e: Event, w: State)
    requires Shape(s) && Core(w, {w.current}) && w.current == s.current && w.pcbs[w.current].level < MLQ_LEVELS
    requires w.pcbs[w.current].pid == s.pcbs[s.current].pid && w.pcbs[w.current].level == s.pcbs[s.current].level
    ensures Dispatch(Schedule(w, w.current)).Ok? ==>
              var c, r := s.current, Dispatch(Schedule(w, w.current)).state;
              && r.pcbs[c].pid == s.pcbs[c].pid && r.pcbs[c].level == s.pcbs[c].level
              && (r.current == c || Waits(r, c, s.pcbs[c].level, Ready))
  {
    var c := s.current;
    var t := Schedule(w, c);
    CoreSchedule(w, {c}, c);
    assert {c} - {c} == {};
    assert Waits(t, c, s.pcbs[c].level, Ready);
    if Dispatch(t).Ok? {
      ReadyAfterDispatch(t, {}, c, s.pcbs[c].level);
      if Dispatch(t).state.current == c {
        var l, k := DispatchMeans(t, {});
      }
    }
  }
}
