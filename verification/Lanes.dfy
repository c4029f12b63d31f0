/** The state guarded by the queue's lock, and what one critical section does to it.
    Every other module speaks about the queue through these functions. */
module Lanes {

  /** Anything comparable can be queued. */
  type Item(==, !new, 00)

  type Time = int

  datatype Option<+T> = None | Some(value: T)

  function One(b: bool): nat {
    if b then 1 else 0
  }

  datatype Lane = Fresh | Staled

  datatype Queue = Queue(
    queueFresh: seq<Item>,
    queueStaled: seq<Item>,
    dirty: set<Item>,
    processing: set<Item>,
    shuttingDown: bool)
  {
    function Len(): nat {
      |queueFresh| + |queueStaled|
    }

    function Contents(lane: Lane): seq<Item> {
      if lane.Fresh? then queueFresh else queueStaled
    }

    function Append(x: Item, lane: Lane): Queue {
      if lane.Fresh? then this.(queueFresh := queueFresh + [x]) else this.(queueStaled := queueStaled + [x])
    }

    predicate IsQueued(x: Item) {
      x in queueFresh || x in queueStaled
    }
  }

  const EMPTY := Queue([], [], {}, {}, false)

  ghost predicate NoDuplicates(s: seq<Item>) {
    forall i, j :: 0 <= i < j < |s| ==> s[i] != s[j]
  }

  /** What the comment on the struct's fields promises: an item sits in at most one lane, at most
      once, and exactly when it is dirty and nobody is processing it. */
  ghost predicate Valid(q: Queue) {
    && NoDuplicates(q.queueFresh)
    && NoDuplicates(q.queueStaled)
    && (forall x :: x in q.queueFresh ==> x !in q.queueStaled)
    && (forall x :: q.IsQueued(x) <==> x in q.dirty && x !in q.processing)
  }

  /** Would `add` take the item in, or ignore the call? */
  predicate Accepts(q: Queue, x: Item) {
    !q.shuttingDown && x !in q.dirty
  }

  function Add(q: Queue, x: Item, lane: Lane): Queue {
    if q.shuttingDown then q
    else if x in q.dirty then q
    else
      var r := q.(dirty := q.dirty + {x});
      if x in q.processing then r else r.Append(x, lane)
  }

  /** Does `add` reach its call to Signal? */
  predicate AddSignals(q: Queue, x: Item) {
    Accepts(q, x) && x !in q.processing
  }

  /** Is there something for Get (or for GetFresh) to take? */
  predicate Ready(q: Queue, freshOnly: bool) {
    |q.queueFresh| > 0 || (!freshOnly && |q.queueStaled| > 0)
  }

  function TakenFrom(q: Queue): Lane {
    if |q.queueFresh| > 0 then Fresh else Staled
  }

  function Head(q: Queue, freshOnly: bool): Item
    requires Ready(q, freshOnly)
  {
    q.Contents(TakenFrom(q))[0]
  }

  function Take(q: Queue, freshOnly: bool): Queue
    requires Ready(q, freshOnly)
  {
    var x := Head(q, freshOnly);
    var r := if |q.queueFresh| > 0 then q.(queueFresh := q.queueFresh[1..]) else q.(queueStaled := q.queueStaled[1..]);
    r.(processing := q.processing + {x}, dirty := q.dirty - {x})
  }

  /** `Done`, once it is known which lane a still dirty item goes to. */
  function Finish(q: Queue, x: Item, lane: Lane): Queue {
    var r := q.(processing := q.processing - {x});
    if x in q.dirty then r.Append(x, lane) else r
  }

  function ShutDown(q: Queue): Queue {
    q.(shuttingDown := true)
  }

  lemma AddKeepsValid(q: Queue, x: Item, lane: Lane)
    requires Valid(q)
    ensures Valid(Add(q, x, lane))
  {
  }

  lemma TakeKeepsValid(q: Queue, freshOnly: bool)
    requires Valid(q) && Ready(q, freshOnly)
    ensures var x := Head(q, freshOnly);
            x in q.dirty && x !in q.processing && !Take(q, freshOnly).IsQueued(x)
    ensures Valid(Take(q, freshOnly))
  {
    var x, r := Head(q, freshOnly), Take(q, freshOnly);
    assert q.IsQueued(x);
    forall y ensures r.IsQueued(y) <==> y in r.dirty && y !in r.processing {
      assert q.IsQueued(y) <==> y in q.dirty && y !in q.processing;
      if |q.queueFresh| > 0 {
        assert q.queueFresh == [x] + r.queueFresh;
      } else {
        assert q.queueStaled == [x] + r.queueStaled;
      }
    }
  }

  /** The item taken is the first of the fresh lane, or of the staled lane if the fresh one is empty and
      the caller may have staled items; it leaves its lane, is in process and is clean. */
  lemma TakeMeans(q: Queue, freshOnly: bool)
    requires Ready(q, freshOnly)
    ensures var x, r := Head(q, freshOnly), Take(q, freshOnly);
            && (if q.queueFresh != [] then q.queueFresh == [x] + r.queueFresh && r.queueStaled == q.queueStaled
                else !freshOnly && q.queueStaled == [x] + r.queueStaled && r.queueFresh == [])
            && r.processing == q.processing + {x} && r.dirty == q.dirty - {x}
            && r.shuttingDown == q.shuttingDown
  {
  }

  lemma FinishKeepsValid(q: Queue, x: Item, lane: Lane)
    requires Valid(q) && x in q.processing
    ensures Valid(Finish(q, x, lane))
  {
  }

  /** Done demands that its caller holds the item: handed a queued item instead, it queues the
      item a second time. For an item nobody holds the promise survives exactly when the item
      is not dirty. */
  lemma FinishWithoutHolding(q: Queue, x: Item, lane: Lane)
    requires Valid(q) && x !in q.processing
    ensures Valid(Finish(q, x, lane)) <==> x !in q.dirty
  {
    var r := Finish(q, x, lane);
    if x in q.dirty {
      assert q.IsQueued(x);
      var before, after := q.Contents(lane), r.Contents(lane);
      assert after[|before|] == x;
      if x in before {
        var k :| 0 <= k < |before| && before[k] == x;
        assert after[k] == after[|before|];
      }
    } else {
      assert r == q;
    }
  }

  /** The number `Len` reports is the number of items waiting for a worker, not |dirty|. */
  lemma LenCountsWaitingItems(q: Queue)
    requires Valid(q)
    ensures q.Len() == |q.dirty - q.processing|
  {
    var all := q.queueFresh + q.queueStaled;
    assert NoDuplicates(all) by {
      forall i, j | 0 <= i < j < |all| ensures all[i] != all[j] {
        if i < |q.queueFresh| <= j {
          assert all[i] in q.queueFresh && all[j] in q.queueStaled;
        }
      }
    }
    SizeOfDistinct(all);
    assert (set x | x in all) == q.dirty - q.processing by {
      forall x ensures x in all <==> x in q.dirty - q.processing {
        assert q.IsQueued(x) <==> x in q.dirty && x !in q.processing;
      }
    }
  }

  /** The depth gauge shows |dirty|: it agrees with `Len` exactly when no item in process has become
      dirty again. */
  lemma DepthIsLenIff(q: Queue)
    requires Valid(q)
    ensures |q.dirty| == q.Len() <==> q.dirty !! q.processing
  {
    LenCountsWaitingItems(q);
    assert q.dirty == (q.dirty - q.processing) + q.dirty * q.processing;
  }

  lemma {:induction false} SizeOfDistinct(s: seq<Item>)
    requires NoDuplicates(s)
    ensures |set x | x in s| == |s|
  {
    if s != [] {
      var rest := s[..|s| - 1];
      SizeOfDistinct(rest);
      var last := s[|s| - 1];
      assert s == rest + [last];
      assert (set x | x in s) == (set x | x in rest) + {last};
      assert last !in rest;
    }
  }
}
