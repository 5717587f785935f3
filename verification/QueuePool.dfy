/** The queue module: linked FIFO and ordered queues that draw their nodes from one shared free list. */
module QueuePool {

  const MAX_PROCS: nat := 24
  const MAX_SHMS: nat := 4
  const FUDGE_FACTOR: nat := 5
  const NODE_COUNT: nat := 2 * MAX_PROCS + MAX_SHMS + FUDGE_FACTOR

  /** What a queue node points at: the index of a PCB, of a stack, or of a shared-memory segment. */
  type Id = n: nat | n < MAX_PROCS

  datatype Status = Success | AllocFail | BadLevel

  datatype Removed = Null | Item(data: Id)

  // -------- Sequence-level meaning of the queue operations --------

  ghost predicate Sorted(keys: seq<nat>) {
    forall i, j :: 0 <= i < j < |keys| ==> keys[i] <= keys[j]
  }

  /** The first position from `i` on whose key exceeds `key`. */
  ghost function RankFrom(keys: seq<nat>, key: nat, i: nat): (k: nat)
    requires i <= |keys|
    ensures i <= k <= |keys|
    ensures forall j :: i <= j < k ==> keys[j] <= key
    ensures k < |keys| ==> keys[k] > key
    decreases |keys| - i
  {
    if i == |keys| || keys[i] > key then i else RankFrom(keys, key, i + 1)
  }

  /** Number of leading keys that are at most `key`: where an ordered insertion lands. */
  ghost function Rank(keys: seq<nat>, key: nat): (k: nat)
    ensures k <= |keys|
    ensures forall j :: 0 <= j < k ==> keys[j] <= key
    ensures k < |keys| ==> keys[k] > key
  {
    RankFrom(keys, key, 0)
  }

  lemma RankUnique(keys: seq<nat>, key: nat, k: nat)
    requires k <= |keys|
    requires forall j :: 0 <= j < k ==> keys[j] <= key
    requires k < |keys| ==> keys[k] > key
    ensures Rank(keys, key) == k
  {
  }

  /** Where _q_insert puts a new item: after the last key not above `hash`, or at the end. */
  ghost function Spot(ordered: bool, keys: seq<nat>, hash: nat): (k: nat)
    ensures k <= |keys|
  {
    if ordered then Rank(keys, hash) else |keys|
  }

  ghost function InsertAt<T>(s: seq<T>, k: nat, x: T): seq<T>
    requires k <= |s|
  {
    s[..k] + [x] + s[k..]
  }

  // -------- The linked representation --------

  class QNode {
    var key: nat
    var data: Id
    var next: QNode?
    ghost var home: Queue?  // the queue whose chain holds this node

    constructor ()
      ensures key == 0 && data == 0 && next == null && home == null
    {
      key, data, next, home := 0, 0, null, null;
    }
  }

  ghost predicate Distinct<T>(s: seq<T>) {
    forall i, j :: 0 <= i < j < |s| ==> s[i] != s[j]
  }

  /** `chain` lists the nodes reachable from `first`, in order. */
  ghost predicate Linked(chain: seq<QNode>, first: QNode?)
    reads (set n | n in chain)`next
  {
    && first == (if chain == [] then null else chain[0])
    && forall j {:trigger chain[j].next} :: 0 <= j < |chain| ==>
         chain[j].next == if j + 1 < |chain| then chain[j + 1] else null
  }

  /** The nodes of `chain` belong to list `home`, carry these keys and items, and are distinct. */
  ghost predicate Carries(chain: seq<QNode>, home: Queue?, keys: seq<nat>, items: seq<Id>)
    reads chain
  {
    && |keys| == |items| == |chain|
    && (forall j {:trigger chain[j]} :: 0 <= j < |chain| ==>
          chain[j].home == home && chain[j].key == keys[j] && chain[j].data == items[j])
    && Distinct(chain)
  }

  class Queue {
    var ordered: bool  // whether the header holds a hash function
    var first: QNode?
    var last: QNode?
    ghost var chain: seq<QNode>
    ghost var items: seq<Id>  // what the queue holds, first to last
    ghost var keys: seq<nat>   // the key stored beside each item

    /** _q_reset: an empty queue, ordered if it is given a hash function. */
    constructor (ordered: bool)
      ensures this.ordered == ordered && Ok()
      ensures chain == [] && items == [] && keys == []
    {
      this.ordered, first, last := ordered, null, null;
      chain, items, keys := [], [], [];
    }

    /** The header heads exactly the nodes of `chain`, which hold these keys and items in this order. */
    ghost predicate Ok()
      reads this, chain
    {
      && Linked(chain, first)
      && last == (if chain == [] then null else chain[|chain| - 1])
      && Carries(chain, this, keys, items)
      && (ordered ==> Sorted(keys))
    }

    /** Bookkeeping: this queue now owns the linked-in `qnode` at position `k`. */
    ghost method Enroll(k: nat, qnode: QNode)
      requires Carries(chain, this, keys, items) && qnode !in chain && k <= |chain|
      requires var t := InsertAt(chain, k, qnode); Linked(t, first) && last == t[|t| - 1]
      requires ordered ==> Sorted(InsertAt(keys, k, qnode.key))
      modifies `chain, `items, `keys, qnode`home
      ensures Ok() && qnode.home == this
      ensures chain == InsertAt(old(chain), k, qnode)
      ensures items == InsertAt(old(items), k, qnode.data)
      ensures keys == InsertAt(old(keys), k, qnode.key)
    {
      qnode.home := this;
      CarriesInsert(chain, this, keys, items, k, qnode);
      chain := InsertAt(chain, k, qnode);
      items := InsertAt(items, k, qnode.data);
      keys := InsertAt(keys, k, qnode.key);
    }

    /** Unlink the first node. */
    method DropFirst() returns (qnode: QNode)
      requires Ok() && chain != []
      modifies this, (set n | n in chain)`home
      ensures Ok() && ordered == old(ordered)
      ensures qnode == old(chain)[0] && qnode.home == null && qnode !in chain
      ensures forall n :: n in chain ==> n.home == this
      ensures chain == old(chain)[1..] && items == old(items)[1..] && keys == old(keys)[1..]
    {
      qnode := first;
      LinkedTail(chain, qnode);
      CarriesTail(chain, this, keys, items);
      first := qnode.next;
      if first == null {
        last := null;
      }
      qnode.home := null;
      chain, items, keys := chain[1..], items[1..], keys[1..];
    }
  }

  lemma LinkedTail(chain: seq<QNode>, first: QNode?)
    requires chain != [] && Linked(chain, first) && Distinct(chain)
    ensures Linked(chain[1..], chain[0].next) && Distinct(chain[1..]) && chain[0] !in chain[1..]
  {
    var rest := chain[1..];
    forall j {:trigger rest[j].next} | 0 <= j < |rest|
      ensures rest[j].next == if j + 1 < |rest| then rest[j + 1] else null
    {
      assert rest[j] == chain[j + 1];
    }
  }

  lemma DistinctInsert<T>(s: seq<T>, k: nat, x: T)
    requires Distinct(s) && x !in s && k <= |s|
    ensures Distinct(InsertAt(s, k, x))
  {
    var t := InsertAt(s, k, x);
    forall i, j | 0 <= i < j < |t| ensures t[i] != t[j] {
      assert i < k ==> t[i] == s[i];
      assert i > k ==> t[i] == s[i - 1];
      assert j < k ==> t[j] == s[j];
      assert j > k ==> t[j] == s[j - 1];
    }
  }

  lemma CarriesInsert(c: seq<QNode>, home: Queue?, keys: seq<nat>, items: seq<Id>, k: nat, n: QNode)
    requires Carries(c, home, keys, items) && n !in c && n.home == home && k <= |c|
    ensures Carries(InsertAt(c, k, n), home, InsertAt(keys, k, n.key), InsertAt(items, k, n.data))
  {
    DistinctInsert(c, k, n);
    var t := InsertAt(c, k, n);
    forall j {:trigger t[j]} | 0 <= j < |t|
      ensures && t[j].home == home && t[j].key == InsertAt(keys, k, n.key)[j]
              && t[j].data == InsertAt(items, k, n.data)[j]
    {
      assert j < k ==> t[j] == c[j];
      assert j > k ==> t[j] == c[j - 1];
    }
  }

  lemma CarriesTail(c: seq<QNode>, home: Queue?, keys: seq<nat>, items: seq<Id>)
    requires c != [] && Carries(c, home, keys, items)
    ensures Carries(c[1..], home, keys[1..], items[1..])
  {
    var t := c[1..];
    forall j {:trigger t[j]} | 0 <= j < |t|
      ensures t[j].home == home && t[j].key == keys[1..][j] && t[j].data == items[1..][j]
    {
      assert t[j] == c[j + 1];
    }
  }

  lemma SortedInsert(keys: seq<nat>, key: nat)
    requires Sorted(keys)
    ensures Sorted(InsertAt(keys, Rank(keys, key), key))
  {
    var k := Rank(keys, key);
    var t := InsertAt(keys, k, key);
    forall i, j | 0 <= i < j < |t| ensures t[i] <= t[j] {
      assert i < k ==> t[i] == keys[i];
      assert i > k ==> t[i] == keys[i - 1];
      assert j < k ==> t[j] == keys[j];
      assert j > k ==> t[j] == keys[j - 1];
    }
  }

  /** The relinking step of _q_insert: `qnode` goes between `prev` and `curr`. */
  method Relink(q: Queue, ghost c: seq<QNode>, ghost k: nat, prev: QNode?, qnode: QNode, curr: QNode?)
    requires Linked(c, q.first) && q.last == (if c == [] then null else c[|c| - 1])
    requires Distinct(c) && qnode !in c && k <= |c|
    requires prev == if k == 0 then null else c[k - 1]
    requires curr == if k == |c| then null else c[k]
    modifies q`first, q`last, qnode`next, (set n | n in c)`next
    ensures Linked(InsertAt(c, k, qnode), q.first)
    ensures q.last == InsertAt(c, k, qnode)[|c|]
  {
    qnode.next := curr;
    if prev != null {
      prev.next := qnode;
    } else {
      q.first := qnode;
    }
    if curr == null {
      q.last := qnode;
    }
    ghost var t := InsertAt(c, k, qnode);
    forall j {:trigger t[j].next} | 0 <= j < |t|
      ensures t[j].next == if j + 1 < |t| then t[j + 1] else null
    {
      if j < k {
        assert t[j] == c[j];
      } else if j > k {
        assert t[j] == c[j - 1] && c[j - 1] != prev;
      }
    }
  }

  class Pool {
    var free: QNode?
    ghost var freeChain: seq<QNode>
    ghost var used: int  // how many nodes are in queues
    ghost const nodes: set<QNode>
    ghost const queues: set<Queue>

    ghost predicate FreeListOk()
      reads this, nodes
    {
      && (forall n :: n in freeChain ==> n in nodes && n.home == null)
      && Distinct(freeChain)
      && Linked(freeChain, free)
    }

    ghost predicate Owns(q: Queue)
      reads this, q, nodes
    {
      && (forall n :: n in q.chain ==> n in nodes)
      && q.Ok()
    }

    /** The object invariant, with `inFlight` nodes taken off every list. */
    ghost predicate ValidBut(inFlight: nat)
      reads this, nodes, queues
    {
      && FreeListOk()
      && (forall q :: q in queues ==> Owns(q))
      && |freeChain| + used + inFlight == |nodes| == NODE_COUNT
    }

    ghost predicate Valid()
      reads this, nodes, queues
    {
      ValidBut(0)
    }

    /** A node is in no chain but that of its home. */
    lemma OnlyAtHome(n: QNode)
      requires forall q :: q in queues ==> Owns(q)
      ensures forall q :: q in queues && n.home != q ==> n !in q.chain
    {
    }

    lemma ChainsApart(q: Queue)
      requires q in queues && forall p :: p in queues ==> Owns(p)
      ensures forall p :: p in queues && p != q ==> forall n :: n in p.chain ==> n !in q.chain
      ensures FreeListOk() ==> forall n :: n in q.chain ==> n !in freeChain
    {
    }

    /** _qn_alloc: detach the head of the free list, cleared; null when the list is empty. */
    method QnAlloc() returns (qnode: QNode?)
      requires Valid()
      modifies this, nodes
      ensures used == old(used)
      ensures qnode == null <==> old(freeChain) == []
      ensures qnode == null ==> Valid()
      ensures qnode != null ==>
                && qnode == old(freeChain)[0] && freeChain == old(freeChain)[1..]
                && ValidBut(1) && qnode in nodes && qnode.home == null && qnode !in freeChain
                && qnode.key == 0 && qnode.data == 0 && qnode.next == null
    {
      qnode := free;
      if qnode != null {
        OnlyAtHome(qnode);
        LinkedTail(freeChain, free);
        free := qnode.next;
        qnode.next := null;
        qnode.data := 0;
        qnode.key := 0;
        freeChain := freeChain[1..];
      }
    }

    /** _qn_dealloc: push a detached node on the free list. */
    method QnDealloc(qnode: QNode)
      requires ValidBut(1) && qnode in nodes && qnode.home == null && qnode !in freeChain
      modifies this, nodes
      ensures Valid() && used == old(used) && freeChain == [qnode] + old(freeChain)
    {
      OnlyAtHome(qnode);
      qnode.next := free;
      free := qnode;
      freeChain := [qnode] + freeChain;
    }

    /** The search of _q_insert: the neighbours between which the new node goes. */
    method Locate(q: Queue, key: nat) returns (prev: QNode?, curr: QNode?)
      requires q.Ok()
      ensures var c, k := q.chain, Spot(q.ordered, q.keys, key);
              && prev == (if k == 0 then null else c[k - 1])
              && curr == (if k == |c| then null else c[k])
    {
      if q.ordered {
        prev := null;
        curr := q.first;
        ghost var c, k := q.chain, 0;
        while curr != null && curr.key <= key
          invariant 0 <= k <= |c|
          invariant prev == if k == 0 then null else c[k - 1]
          invariant curr == if k == |c| then null else c[k]
          invariant forall j :: 0 <= j < k ==> q.keys[j] <= key
          decreases |c| - k
        {
          prev := curr;
          curr := curr.next;
          k := k + 1;
        }
        RankUnique(q.keys, key, k);
      } else {
        prev := q.last;
        curr := null;
      }
    }

    /** _q_insert */
    method Insert(q: Queue, data: Id, hash: nat) returns (status: Status)
      requires Valid() && q in queues
      modifies this, nodes, q
      ensures Valid() && q.ordered == old(q.ordered)
      ensures old(used) == NODE_COUNT ==>
                && status == AllocFail && used == old(used)
                && q.items == old(q.items) && q.keys == old(q.keys)
      ensures old(used) < NODE_COUNT ==>
                var k := Spot(q.ordered, old(q.keys), hash);
                && status == Success && used == old(used) + 1
                && k <= |old(q.items)|
                && q.items == InsertAt(old(q.items), k, data)
                && q.keys == InsertAt(old(q.keys), k, if q.ordered then hash else 0)
    {
      var qnode := QnAlloc();
      if qnode == null {
        return AllocFail;
      }
      FillIn(q, qnode, data, hash);
      ghost var k := LinkInto(q, qnode, hash);
      Adopt(q, k, qnode);
      return Success;
    }

    /** `qnode` is linked into `q` at position `k`, but the books do not yet say so. */
    ghost predicate HalfLinked(q: Queue, k: nat, qnode: QNode)
      reads this, nodes, queues, q, qnode
    {
      && FreeListOk() && (forall p :: p in queues && p != q ==> Owns(p))
      && |freeChain| + used + 1 == |nodes| == NODE_COUNT
      && (forall n :: n in q.chain ==> n in nodes) && Carries(q.chain, q, q.keys, q.items)
      && qnode in nodes && qnode.home == null && qnode !in freeChain && k <= |q.chain|
      && var t := InsertAt(q.chain, k, qnode);
         && (forall n :: n in t ==> n in nodes)
         && Linked(t, q.first) && q.last == t[|t| - 1]
    }

    /** The pointer half of _q_insert. */
    method LinkInto(q: Queue, qnode: QNode, hash: nat) returns (ghost k: nat)
      requires ValidBut(1) && q in queues && qnode in nodes && qnode.home == null && qnode !in freeChain
      modifies q`first, q`last, nodes`next
      ensures HalfLinked(q, k, qnode) && k == Spot(q.ordered, q.keys, hash)
    {
      hide Sorted, Spot, Linked;
      k := Spot(q.ordered, q.keys, hash);
      OnlyAtHome(qnode);
      var prev, curr := Locate(q, hash);
      Splice(q, k, prev, qnode, curr);
    }

    /** Relinking one chain leaves the other lists alone. */
    method Splice(q: Queue, ghost k: nat, prev: QNode?, qnode: QNode, curr: QNode?)
      requires FreeListOk() && q in queues && (forall p :: p in queues ==> Owns(p))
      requires qnode in nodes && qnode.home == null && qnode !in freeChain && qnode !in q.chain && k <= |q.chain|
      requires prev == if k == 0 then null else q.chain[k - 1]
      requires curr == if k == |q.chain| then null else q.chain[k]
      modifies q`first, q`last, nodes`next
      ensures FreeListOk() && forall p :: p in queues && p != q ==> Owns(p)
      ensures Linked(InsertAt(q.chain, k, qnode), q.first) && q.last == InsertAt(q.chain, k, qnode)[|q.chain|]
    {
      hide Sorted;
      OnlyAtHome(qnode);
      ChainsApart(q);
      Relink(q, q.chain, k, prev, qnode, curr);
    }

    /** The first statements of _q_insert: data and key go into the fresh node. */
    method FillIn(q: Queue, qnode: QNode, data: Id, hash: nat)
      requires ValidBut(1) && q in queues && qnode in nodes && qnode.home == null && qnode.key == 0
      modifies qnode`data, qnode`key
      ensures ValidBut(1) && qnode.data == data && qnode.key == if q.ordered then hash else 0
      ensures var k := Spot(q.ordered, q.keys, hash); q.ordered ==> Sorted(InsertAt(q.keys, k, qnode.key))
    {
      OnlyAtHome(qnode);
      qnode.data := data;
      if q.ordered {
        qnode.key := hash;
        SortedInsert(q.keys, hash);
      }
    }

    /** The bookkeeping of an insertion: `q` now owns the linked-in `qnode` at position `k`. */
    ghost method Adopt(q: Queue, k: nat, qnode: QNode)
      requires q in queues && HalfLinked(q, k, qnode)
      requires q.ordered ==> Sorted(InsertAt(q.keys, k, qnode.key))
      modifies this`used, q`chain, q`items, q`keys, qnode`home
      ensures Valid() && used == old(used) + 1
      ensures q.items == InsertAt(old(q.items), k, qnode.data)
      ensures q.keys == InsertAt(old(q.keys), k, qnode.key)
    {
      q.Enroll(k, qnode);
      used := used + 1;
    }

    /** _q_remove: the head of `q`, whose node goes back to the free list. */
    method Remove(q: Queue) returns (r: Removed)
      requires Valid() && q in queues
      modifies this, nodes, q
      ensures Valid() && q.ordered == old(q.ordered)
      ensures old(q.items) == [] ==> r == Null && q.items == [] && q.keys == [] && used == old(used)
      ensures old(q.items) != [] ==>
                && r == Item(old(q.items)[0]) && used == old(used) - 1
                && q.items == old(q.items)[1..] && q.keys == old(q.keys)[1..]
    {
      if q.first == null {
        return Null;
      }
      var qnode := Unlink(q);
      r := Item(qnode.data);
      QnDealloc(qnode);
    }

    /** Unlink the head of a non-empty queue. */
    method Unlink(q: Queue) returns (qnode: QNode)
      requires Valid() && q in queues && q.items != []
      modifies q, nodes`home, this`used
      ensures ValidBut(1) && used == old(used) - 1 && q.ordered == old(q.ordered)
      ensures qnode in nodes && qnode.home == null && qnode !in freeChain
      ensures qnode.data == old(q.items)[0]
      ensures q.items == old(q.items)[1..] && q.keys == old(q.keys)[1..]
    {
      OnlyAtHome(q.first);
      qnode := q.DropFirst();
      used := used - 1;
    }

    /** _q_remove_if_le: the head of `q` if its stored key is at most `key`. */
    method RemoveIfLe(q: Queue, key: nat) returns (r: Removed)
      requires Valid() && q in queues
      modifies this, nodes, q
      ensures Valid() && q.ordered == old(q.ordered)
      ensures var due := old(q.keys) != [] && old(q.keys)[0] <= key;
              && |old(q.items)| == |old(q.keys)|
              && r == (if due then Item(old(q.items)[0]) else Null)
              && used == old(used) - (if due then 1 else 0)
              && q.items == (if due then old(q.items)[1..] else old(q.items))
              && q.keys == (if due then old(q.keys)[1..] else old(q.keys))
    {
      if q.first != null && q.first.key <= key {
        r := Remove(q);
      } else {
        r := Null;
      }
    }

    /** _q_init: every node cleared and on the free list. */
    constructor (qs: set<Queue>)
      requires forall q :: q in qs ==> q.chain == [] && q.Ok()
      ensures Valid() && used == 0 && queues == qs && fresh(nodes)
    {
      queues := qs;
      used := 0;
      var head: QNode? := null;
      ghost var chain: seq<QNode> := [];
      for i := 0 to NODE_COUNT
        invariant |chain| == i && Distinct(chain) && Linked(chain, head)
        invariant forall n :: n in chain ==> fresh(n) && n.home == null
      {
        var n := new QNode();
        n.next := head;
        head := n;
        chain := [n] + chain;
      }
      DistinctCard(chain);
      free := head;
      freeChain := chain;
      nodes := set n | n in chain;
    }

    /** Where a node is, if it is not free: the chains of `qs` as one set. */
    ghost function Queued(qs: seq<Queue>): set<QNode>
      reads qs
    {
      if qs == [] then {} else (set n | n in qs[0].chain) + Queued(qs[1..])
    }

    lemma {:induction false} QueuedCard(qs: seq<Queue>)
      requires Distinct(qs) && forall q :: q in qs ==> q in queues && Owns(q)
      ensures |Queued(qs)| == SumLengths(qs)
      ensures forall n :: n in Queued(qs) ==> n in nodes && n.home in qs
    {
      if qs != [] {
        var q, rest := qs[0], qs[1..];
        assert q in qs && Owns(q) && q !in rest;
        QueuedCard(rest);
        DistinctCard(q.chain);
        var here := set n | n in q.chain;
        assert forall n :: n in here ==> n.home == q;
        assert here !! Queued(rest);
      }
    }

    /** Conservation: no node is ever lost; each is on the free list or in the chain of exactly one queue. */
    lemma NodesPartitioned(qs: seq<Queue>)
      requires Valid() && Distinct(qs) && queues == (set q | q in qs) && used == SumLengths(qs)
      ensures forall n :: n in nodes ==> n in freeChain || exists q :: q in queues && n in q.chain
      ensures forall n :: n in freeChain ==> n in nodes && forall q :: q in queues ==> n !in q.chain
      ensures forall q, p :: q in queues && p in queues && p != q ==> forall n :: n in q.chain ==> n !in p.chain
    {
      QueuedCard(qs);
      DistinctCard(freeChain);
      var idle := set n | n in freeChain;
      assert forall n :: n in idle ==> n !in Queued(qs);
      assert |idle + Queued(qs)| == |nodes|;
      SubsetOfSameSize(idle + Queued(qs), nodes);
      forall n | n in Queued(qs) ensures exists q :: q in queues && n in q.chain {
        InSomeChain(n, qs);
      }
    }

    lemma {:induction false} InSomeChain(n: QNode, qs: seq<Queue>)
      requires n in Queued(qs)
      ensures exists q :: q in qs && n in q.chain
    {
      if n !in qs[0].chain {
        InSomeChain(n, qs[1..]);
      } else {
        assert qs[0] in qs;
      }
    }
  }

  ghost function SumLengths(qs: seq<Queue>): nat
    reads qs
  {
    if qs == [] then 0 else |qs[0].chain| + SumLengths(qs[1..])
  }

  lemma {:induction false} DistinctCard<T>(s: seq<T>)
    requires Distinct(s)
    ensures |set x | x in s| == |s|
  {
    if s != [] {
      var t := s[..|s| - 1];
      DistinctCard(t);
      assert (set x | x in s) == (set x | x in t) + {s[|s| - 1]};
    }
  }

  lemma SubsetOfSameSize<T>(a: set<T>, b: set<T>)
    requires a <= b && |a| == |b|
    ensures a == b
  {
    if a != b {
      var x :| x in b && x !in a;
      assert a <= b - {x};
      SubsetCard(a, b - {x});
    }
  }

  lemma {:induction false} SubsetCard<T>(a: set<T>, b: set<T>)
    requires a <= b
    ensures |a| <= |b|
  {
    if a != {} {
      var x :| x in a;
      SubsetCard(a - {x}, b - {x});
    }
  }
}
