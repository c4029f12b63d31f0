/** The heap together with the map of known entries: a finite map from items to the earliest time
    they are due. */
module DelayedItems {
  import opened Lanes
  import opened DelayHeap

  /** What `insert` means: the earlier of the two times. */
  function Earliest(m: map<Item, Time>, x: Item, t: Time): map<Item, Time> {
    m[x := if x in m && m[x] <= t then m[x] else t]
  }

  function Later(m: map<Item, Time>, now: Time): map<Item, Time> {
    map x | x in m && m[x] > now :: m[x]
  }

  /** Each known entry is the one node for its item, and every node is known. */
  ghost predicate Maps(known: map<Item, WaitFor>, nodes: set<WaitFor>) {
    && (forall x :: x in known ==> known[x].data == x && known[x] in nodes)
    && (forall n :: n in nodes ==> n.data in known && known[n.data] == n)
  }

  lemma MapsOneMore(known: map<Item, WaitFor>, nodes: set<WaitFor>, n: WaitFor)
    requires Maps(known, nodes) && n.data !in known
    ensures Maps(known[n.data := n], nodes + {n})
  {
  }

  class Delayed {
    const heap: WaitForPriorityQueue
    var knownEntries: map<Item, WaitFor>

    ghost predicate Valid()
      reads this, heap, heap.pq
    {
      heap.Valid() && Maps(knownEntries, heap.Nodes())
    }

    ghost function View(): map<Item, Time>
      reads this, knownEntries.Values
    {
      map x | x in knownEntries :: knownEntries[x].readyAt
    }

    constructor ()
      ensures Valid() && View() == map[] && fresh(heap) && heap.pq == []
    {
      heap := new WaitForPriorityQueue();
      knownEntries := map[];
      new;
      heap.HeapInit();
    }

    /** The source's insert, with its two branches as methods of their own. */
    method Insert(entry: WaitFor)
      requires Valid() && entry !in heap.pq
      modifies this, heap, heap.Nodes(), {entry}`index
      ensures Valid() && View() == Earliest(old(View()), entry.data, entry.readyAt)
      ensures heap.Nodes() <= old(heap.Nodes()) + {entry}
    {
      if entry.data in knownEntries {
        if knownEntries[entry.data].readyAt > entry.readyAt {
          Hasten(entry.data, entry.readyAt);
        }
        return;
      }
      InsertNew(entry);
    }

    method Hasten(x: Item, readyAt: Time)
      requires Valid() && x in knownEntries
      modifies heap, heap.Nodes()
      ensures Valid() && View() == old(View())[x := readyAt] && heap.Nodes() == old(heap.Nodes())
    {
      var existing := knownEntries[x];
      assert existing in heap.Nodes();
      heap.Hasten(existing, readyAt);
      assert forall y :: y in knownEntries && y != x ==> knownEntries[y] != existing;
    }

    method InsertNew(entry: WaitFor)
      requires Valid() && entry !in heap.pq && entry.data !in knownEntries
      modifies this, heap, heap.Nodes()`index, {entry}`index
      ensures Valid() && View() == old(View())[entry.data := entry.readyAt]
      ensures heap.Nodes() == old(heap.Nodes()) + {entry}
    {
      hide WaitForPriorityQueue.Valid;
      MapsOneMore(knownEntries, heap.Nodes(), entry);
      knownEntries := knownEntries[entry.data := entry];
      heap.HeapPush(entry);
    }

    /** Removes an earliest entry. */
    method TakeEarliest() returns (entry: WaitFor)
      requires Valid() && heap.pq != []
      modifies this, heap, heap.Nodes()`index
      ensures entry == old(heap.Peek())
      ensures Valid() && entry.data in old(View()) && entry.readyAt == old(View())[entry.data]
      ensures View() == old(View()) - {entry.data}
      ensures forall x :: x in old(View()) ==> entry.readyAt <= old(View())[x]
      ensures heap.Nodes() <= old(heap.Nodes()) && |heap.pq| == |old(heap.pq)| - 1
    {
      entry := heap.HeapPop();
      knownEntries := knownEntries - {entry.data};
    }

    /** Peek shows an earliest entry, and there is one exactly when anything is delayed. */
    lemma PeekShowsTheEarliest()
      requires Valid()
      ensures heap.pq == [] <==> View() == map[]
      ensures heap.pq != [] ==>
                && heap.Peek().data in View()
                && View()[heap.Peek().data] == heap.Peek().readyAt
                && forall x :: x in View() ==> heap.Peek().readyAt <= View()[x]
    {
      if heap.pq == [] {
        assert forall x :: x !in View();
      } else {
        heap.PeekIsEarliest();
        assert heap.Peek() in heap.pq;
        assert heap.Peek().data in View();
      }
    }
  }
}
