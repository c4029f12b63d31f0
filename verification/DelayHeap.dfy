/** The heap of delayed items: nodes shared by reference, each knowing its own index, under the
    sift operations of Go's container/heap. */
module DelayHeap {
  import opened Lanes

  // ---------- heap order, on the sequence of readyAt times ----------

  function Parent(j: nat): (i: nat)
    ensures j > 0 ==> i < j
  {
    if j == 0 then 0 else (j - 1) / 2
  }

  predicate InOrder(keys: seq<Time>, j: nat)
    requires 0 < j < |keys|
  {
    keys[Parent(j)] <= keys[j]
  }

  /** Among the first n, every node other than hole whose parent is at lo or later, and is not
      hole either, is no earlier than its parent. */
  ghost predicate OrderedAround(keys: seq<Time>, lo: nat, n: nat, hole: nat)
    requires n <= |keys|
  {
    forall j :: 0 < j < n && lo <= Parent(j) && Parent(j) != hole && j != hole ==> InOrder(keys, j)
  }

  /** The children of hole are no earlier than its parent. */
  ghost predicate Bridged(keys: seq<Time>, lo: nat, n: nat, hole: nat)
    requires n <= |keys|
  {
    forall j :: 0 < j < n && Parent(j) == hole && hole > 0 && lo <= Parent(hole) ==> keys[Parent(hole)] <= keys[j]
  }

  ghost predicate OrderedFrom(keys: seq<Time>, lo: nat, n: nat)
    requires n <= |keys|
  {
    forall j :: 0 < j < n && lo <= Parent(j) ==> InOrder(keys, j)
  }

  ghost predicate ChildrenInOrder(keys: seq<Time>, n: nat, i: nat)
    requires n <= |keys|
  {
    forall j :: 0 < j < n && Parent(j) == i ==> InOrder(keys, j)
  }

  function Swapped<T>(s: seq<T>, i: nat, j: nat): seq<T>
    requires i < |s| && j < |s|
  {
    s[i := s[j]][j := s[i]]
  }

  /** Moving the hole up: the earlier node takes its parent's place. */
  lemma SwapWithParent(keys: seq<Time>, j: nat)
    requires 0 < j < |keys| && keys[j] < keys[Parent(j)]
    requires OrderedAround(keys, 0, |keys|, j) && Bridged(keys, 0, |keys|, j) && ChildrenInOrder(keys, |keys|, j)
    ensures var i, after := Parent(j), Swapped(keys, Parent(j), j);
            && OrderedAround(after, 0, |keys|, i) && Bridged(after, 0, |keys|, i)
            && ChildrenInOrder(after, |keys|, i)
  {
    var i, after := Parent(j), Swapped(keys, Parent(j), j);
    forall k | 0 < k < |keys| && k != i ensures InOrder(after, k) {
      if Parent(k) == j || Parent(k) == i {
        assert Parent(k) == j ==> InOrder(keys, k);
        assert Parent(k) == i && k != j ==> InOrder(keys, k);
      } else if k != j {
        assert InOrder(keys, k);
      }
    }
    forall k | 0 < k < |keys| && Parent(k) == i && i > 0 ensures after[Parent(i)] <= after[k] {
      assert InOrder(keys, i);
      assert k != j ==> InOrder(keys, k);
    }
  }

  function EarlierChild(keys: seq<Time>, n: nat, i: nat): nat
    requires 2 * i + 1 < n <= |keys|
  {
    if 2 * i + 2 < n && keys[2 * i + 2] < keys[2 * i + 1] then 2 * i + 2 else 2 * i + 1
  }

  lemma EarlierChildIsEarliest(keys: seq<Time>, n: nat, i: nat)
    requires 2 * i + 1 < n <= |keys|
    ensures var j := EarlierChild(keys, n, i);
            Parent(j) == i && forall k :: 0 < k < n && Parent(k) == i ==> keys[j] <= keys[k]
  {
  }

  /** Moving the hole down: the earlier child takes its parent's place. */
  lemma SwapWithChild(keys: seq<Time>, lo: nat, n: nat, i: nat, j: nat)
    requires 2 * i + 1 < n <= |keys| && lo <= i && j == EarlierChild(keys, n, i) && keys[j] < keys[i]
    requires OrderedAround(keys, lo, n, i) && Bridged(keys, lo, n, i)
    ensures var after := Swapped(keys, i, j);
            OrderedAround(after, lo, n, j) && Bridged(after, lo, n, j) && InOrder(after, j)
  {
    EarlierChildIsEarliest(keys, n, i);
    var after := Swapped(keys, i, j);
    forall k | 0 < k < n && lo <= Parent(k) && Parent(k) != j && k != j ensures InOrder(after, k) {
      if Parent(k) != i && k != i {
        assert InOrder(keys, k);
      }
    }
    forall k | 0 < k < n && Parent(k) == j ensures after[Parent(j)] <= after[k] {
      assert InOrder(keys, k);
    }
  }

  /** Where Down stops: no children, or none earlier. */
  lemma NothingToSink(keys: seq<Time>, n: nat, i: nat)
    requires n <= |keys|
    requires 2 * i + 1 < n ==> keys[i] <= keys[EarlierChild(keys, n, i)]
    ensures ChildrenInOrder(keys, n, i)
  {
  }

  lemma ClosedOrder(keys: seq<Time>, lo: nat, n: nat, i: nat)
    requires n <= |keys| && OrderedAround(keys, lo, n, i) && ChildrenInOrder(keys, n, i)
    requires 0 < i < n && lo <= Parent(i) ==> InOrder(keys, i)
    ensures OrderedFrom(keys, lo, n)
  {
  }

  /** A key may change to anything: its two neighbourhoods are what is left to repair. */
  lemma ChangeOneKey(keys: seq<Time>, i: nat, t: Time)
    requires i < |keys| && OrderedFrom(keys, 0, |keys|)
    ensures var after := keys[i := t];
            OrderedAround(after, 0, |keys|, i) && Bridged(after, 0, |keys|, i)
  {
  }

  /** Heap order puts the earliest time at the root. */
  lemma {:induction false} RootIsEarliest(keys: seq<Time>, k: nat)
    requires OrderedFrom(keys, 0, |keys|) && k < |keys|
    ensures keys[0] <= keys[k]
  {
    if k > 0 {
      RootIsEarliest(keys, Parent(k));
      assert InOrder(keys, k);
    }
  }

  class WaitFor {
    const data: Item
    var readyAt: Time
    var index: int

    constructor (data: Item, readyAt: Time)
      ensures this.data == data && this.readyAt == readyAt
    {
      this.data := data;
      this.readyAt := readyAt;
      this.index := 0;
    }
  }

  class WaitForPriorityQueue {
    var pq: seq<WaitFor>

    ghost function Nodes(): set<WaitFor>
      reads this
    {
      set n | n in pq
    }

    ghost function Keys(): (keys: seq<Time>)
      reads this, pq
      ensures |keys| == |pq| && forall i :: 0 <= i < |pq| ==> keys[i] == pq[i].readyAt
    {
      seq(|pq|, i requires 0 <= i < |pq| reads this, pq => pq[i].readyAt)
    }

    /** Back-pointers; they also make the nodes distinct. */
    ghost predicate Indexed()
      reads this, pq
    {
      forall i :: 0 <= i < |pq| ==> pq[i].index == i
    }

    ghost predicate Valid()
      reads this, pq
    {
      Indexed() && OrderedFrom(Keys(), 0, |pq|)
    }

    constructor ()
      ensures pq == [] && Valid()
    {
      pq := [];
    }

    // ---------- the methods of heap.Interface, and Peek ----------

    function Len(): nat
      reads this
    {
      |pq|
    }

    predicate Less(i: nat, j: nat)
      requires i < |pq| && j < |pq|
      reads this, pq
    {
      pq[i].readyAt < pq[j].readyAt
    }

    method Swap(i: nat, j: nat)
      requires i < |pq| && j < |pq| && Indexed()
      modifies this, {pq[i], pq[j]}`index
      ensures pq == Swapped(old(pq), i, j) && Nodes() == old(Nodes())
      ensures Indexed() && Keys() == Swapped(old(Keys()), i, j)
    {
      pq := Swapped(pq, i, j);
      pq[i].index := i;
      pq[j].index := j;
      assert pq[i] == old(pq[j]) && pq[j] == old(pq[i]);
      forall n ensures n in pq <==> n in old(pq) {
        if n in old(pq) {
          var k :| 0 <= k < |pq| && old(pq)[k] == n;
          assert pq[if k == i then j else if k == j then i else k] == n;
        }
      }
    }

    method Push(item: WaitFor)
      requires Indexed() && item !in pq
      modifies this, {item}`index
      ensures pq == old(pq) + [item] && Indexed()
      ensures Keys() == old(Keys()) + [item.readyAt]
    {
      item.index := |pq|;
      pq := pq + [item];
    }

    method Pop() returns (item: WaitFor)
      requires Indexed() && pq != []
      modifies this, {pq[|pq| - 1]}`index
      ensures item == old(pq[|pq| - 1]) && pq == old(pq[..|pq| - 1])
      ensures item.index == -1 && item !in pq && Indexed() && Nodes() == old(Nodes()) - {item}
      ensures Keys() == old(Keys()[..|pq| - 1])
    {
      item := pq[|pq| - 1];
      item.index := -1;
      pq := pq[..|pq| - 1];
      assert old(pq) == pq + [item];
    }

    function Peek(): WaitFor
      requires pq != []
      reads this
    {
      pq[0]
    }

    // ---------- container/heap ----------

    method Up(j0: nat)
      requires j0 < |pq| && Indexed()
      requires OrderedAround(Keys(), 0, |pq|, j0) && Bridged(Keys(), 0, |pq|, j0)
      requires ChildrenInOrder(Keys(), |pq|, j0)
      modifies this, Nodes()`index
      ensures Valid() && |pq| == |old(pq)| && Nodes() == old(Nodes())
    {
      var j: nat := j0;
      while true
        invariant j < |pq| == |old(pq)| && Nodes() == old(Nodes()) && Indexed()
        invariant OrderedAround(Keys(), 0, |pq|, j) && Bridged(Keys(), 0, |pq|, j)
        invariant ChildrenInOrder(Keys(), |pq|, j)
        decreases j
      {
        var i := Parent(j);
        if i == j || !Less(j, i) {
          break;
        }
        SwapWithParent(Keys(), j);
        Swap(i, j);
        j := i;
      }
      ClosedOrder(Keys(), 0, |pq|, j);
    }

    /** The earlier child of i among the first n. */
    function Child(i: nat, n: nat): (j: nat)
      requires 2 * i + 1 < n <= |pq|
      reads this, pq
      ensures i < j < n && j == EarlierChild(Keys(), n, i)
    {
      if 2 * i + 2 < n && Less(2 * i + 2, 2 * i + 1) then 2 * i + 2 else 2 * i + 1
    }

    /** One turn of Down's loop: the earlier child of i takes its place. */
    method SinkOnce(i: nat, n: nat, ghost lo: nat) returns (j: nat)
      requires 2 * i + 1 < n <= |pq| && Indexed() && lo <= i && Less(Child(i, n), i)
      requires OrderedAround(Keys(), lo, n, i) && Bridged(Keys(), lo, n, i)
      modifies this, Nodes()`index
      ensures |pq| == |old(pq)| && Nodes() == old(Nodes()) && Indexed()
      ensures i < j < n && InOrder(Keys(), j) && pq[n..] == old(pq[n..])
      ensures OrderedAround(Keys(), lo, n, j) && Bridged(Keys(), lo, n, j)
    {
      j := Child(i, n);
      SwapWithChild(Keys(), lo, n, i, j);
      Swap(i, j);
    }

    /** Sifts the node at i0 down among the first n; lo bounds the part that is ordered already. */
    method Down(i0: nat, n: nat, ghost lo: nat) returns (moved: bool)
      requires i0 < n || n == 0
      requires n <= |pq| && Indexed() && lo <= i0
      requires OrderedAround(Keys(), lo, n, i0) && Bridged(Keys(), lo, n, i0)
      modifies this, Nodes()`index
      ensures |pq| == |old(pq)| && Nodes() == old(Nodes()) && Indexed()
      ensures pq[n..] == old(pq[n..])
      ensures if moved then OrderedFrom(Keys(), lo, n) else pq == old(pq) && ChildrenInOrder(Keys(), n, i0)
    {
      var i: nat := i0;
      while 2 * i + 1 < n && Less(Child(i, n), i)
        invariant i0 <= i && (i < n || i == i0)
        invariant |pq| == |old(pq)| && Nodes() == old(Nodes()) && Indexed()
        invariant pq[n..] == old(pq[n..])
        invariant OrderedAround(Keys(), lo, n, i) && Bridged(Keys(), lo, n, i)
        invariant if i == i0 then pq == old(pq) else InOrder(Keys(), i)
        decreases n - i
      {
        i := SinkOnce(i, n, lo);
      }
      NothingToSink(Keys(), n, i);
      moved := i > i0;
      if moved {
        ClosedOrder(Keys(), lo, n, i);
      }
    }

    method HeapInit()
      requires Indexed()
      modifies this, Nodes()`index
      ensures Valid() && |pq| == |old(pq)| && Nodes() == old(Nodes())
    {
      var n := |pq|;
      var i := n / 2;
      while i > 0
        invariant n == |pq| == |old(pq)| && Nodes() == old(Nodes()) && Indexed()
        invariant 0 <= i <= n / 2 && OrderedFrom(Keys(), i, n)
      {
        i := i - 1;
        var moved := Down(i, n, i);
        if !moved {
          ClosedOrder(Keys(), i, n, i);
        }
      }
    }

    method HeapPush(x: WaitFor)
      requires Valid() && x !in pq
      modifies this, {x}`index, Nodes()`index
      ensures Valid() && Nodes() == old(Nodes()) + {x}
    {
      Push(x);
      Up(|pq| - 1);
    }

    /** Removes the earliest node. */
    method HeapPop() returns (x: WaitFor)
      requires Valid() && pq != []
      modifies this, Nodes()`index
      ensures Valid() && x == old(Peek()) && x.index == -1
      ensures x !in Nodes() && Nodes() == old(Nodes()) - {x} && |pq| == |old(pq)| - 1
      ensures forall y :: y in old(Nodes()) ==> x.readyAt <= y.readyAt
    {
      PeekIsEarliest();
      var n := |pq| - 1;
      RootToEnd(n);
      x := Pop();
    }

    method RootToEnd(n: nat)
      requires Valid() && n == |pq| - 1
      modifies this, Nodes()`index
      ensures Indexed() && |pq| == n + 1 && Nodes() == old(Nodes()) && pq[n] == old(pq[0])
      ensures OrderedFrom(Keys(), 0, n)
    {
      Swap(0, n);
      var moved := Down(0, n, 0);
      if !moved {
        ClosedOrder(Keys(), 0, n, 0);
      }
    }

    /** Repairs the order after the node at i got another readyAt. */
    method HeapFix(i: nat)
      requires i < |pq| && Indexed()
      requires OrderedAround(Keys(), 0, |pq|, i) && Bridged(Keys(), 0, |pq|, i)
      modifies this, Nodes()`index
      ensures Valid() && |pq| == |old(pq)| && Nodes() == old(Nodes())
    {
      var moved := Down(i, |pq|, 0);
      if !moved {
        Up(i);
      }
    }

    /** The key of a shared node is lowered in place, and the heap is repaired around it. */
    method Hasten(existing: WaitFor, readyAt: Time)
      requires Valid() && existing in pq
      modifies this, Nodes()`index, {existing}`readyAt
      ensures Valid() && Nodes() == old(Nodes()) && existing.readyAt == readyAt
    {
      ghost var keys := Keys();
      ChangeOneKey(keys, existing.index, readyAt);
      existing.readyAt := readyAt;
      assert Keys() == keys[existing.index := readyAt];
      HeapFix(existing.index);
    }

    lemma PeekIsEarliest()
      requires OrderedFrom(Keys(), 0, |pq|) && pq != []
      ensures forall y :: y in Nodes() ==> Peek().readyAt <= y.readyAt
    {
      forall y | y in Nodes() ensures Peek().readyAt <= y.readyAt {
        var k :| 0 <= k < |pq| && pq[k] == y;
        RootIsEarliest(Keys(), k);
      }
    }
  }
}
