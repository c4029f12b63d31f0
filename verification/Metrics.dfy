/** The queue's metrics: a second copy of its bookkeeping, kept by calls inside the same critical
    sections. The clock readings of a call are parameters. */
module Metrics {
  import opened Lanes

  /** The age of an item that is being processed, by the reading taken when the loop visits it. */
  function Age(starts: map<Item, Time>, at: Item -> Time, x: Item): int {
    if x in starts then at(x) - starts[x] else 0
  }

  /** The largest age of all, counting from 0. */
  ghost predicate IsOldest(starts: map<Item, Time>, at: Item -> Time, oldest: int) {
    && oldest >= 0
    && (oldest == 0 || exists x :: x in starts && at(x) - starts[x] == oldest)
    && forall x :: x in starts ==> at(x) - starts[x] <= oldest
  }

  ghost function SumOfAges(starts: map<Item, Time>, at: Item -> Time, xs: set<Item>): int {
    if xs == {} then 0
    else
      var x :| x in xs;
      Age(starts, at, x) + SumOfAges(starts, at, xs - {x})
  }

  /** The sum is that of the times passed since each item's start, whichever item comes first. */
  lemma {:induction false} SumOfAgesFrom(starts: map<Item, Time>, at: Item -> Time, xs: set<Item>, x: Item)
    requires x in xs
    ensures SumOfAges(starts, at, xs) == Age(starts, at, x) + SumOfAges(starts, at, xs - {x})
    ensures x in starts ==> SumOfAges(starts, at, xs) == at(x) - starts[x] + SumOfAges(starts, at, xs - {x})
    ensures SumOfAges(starts, at, {}) == 0
    decreases |xs|
  {
    var y :| y in xs && SumOfAges(starts, at, xs) == Age(starts, at, y) + SumOfAges(starts, at, xs - {y});
    if y != x {
      SumOfAgesFrom(starts, at, xs - {y}, x);
      SumOfAgesFrom(starts, at, xs - {x}, y);
      assert xs - {y} - {x} == xs - {x} - {y};
    }
  }

  lemma OneMore(n: nat, k: int)
    ensures (n + 1) * k == n * k + k
  {
  }

  lemma {:induction false} SumOfAgesIsBounded(starts: map<Item, Time>, at: Item -> Time, xs: set<Item>, oldest: int)
    requires forall x :: x in xs ==> 0 <= Age(starts, at, x) <= oldest
    ensures 0 <= SumOfAges(starts, at, xs) <= |xs| * oldest
    decreases |xs|
  {
    if x :| x in xs {
      SumOfAgesFrom(starts, at, xs, x);
      SumOfAgesIsBounded(starts, at, xs - {x}, oldest);
      OneMore(|xs - {x}|, oldest);
      assert |xs| == |xs - {x}| + 1;
    }
  }

  /** With no age negative, the oldest item is at most the total, and at least the average. */
  lemma OldestBoundsTotal(starts: map<Item, Time>, at: Item -> Time, oldest: int)
    requires forall x :: x in starts ==> 0 <= Age(starts, at, x) <= oldest
    requires oldest == 0 || exists x :: x in starts && Age(starts, at, x) == oldest
    ensures oldest <= SumOfAges(starts, at, starts.Keys) <= |starts.Keys| * oldest
  {
    SumOfAgesIsBounded(starts, at, starts.Keys, oldest);
    if oldest != 0 {
      var x :| x in starts && Age(starts, at, x) == oldest;
      SumOfAgesFrom(starts, at, starts.Keys, x);
      SumOfAgesIsBounded(starts, at, starts.Keys - {x}, oldest);
    }
  }

  /** What the metrics have read from the clock, and what they have observed by it. */
  datatype Clocks = Clocks(
    addTimes: map<Item, Time>, startTimes: map<Item, Time>, latency: seq<int>, workDuration: seq<int>)

  /** Nothing is observed, and the items in process keep their times. */
  predicate OnlyAdds(before: Clocks, after: Clocks) {
    after == before.(addTimes := after.addTimes)
  }

  /** Go's delete on a map. */
  function Erased(m: map<Item, Time>, x: Item): map<Item, Time> {
    m - {x}
  }

  /** The item's processing starts now, and its latency is the time since it was added. */
  predicate Starts(before: Clocks, after: Clocks, x: Item, now: Time) {
    && x in before.addTimes
    && after == before.(addTimes := Erased(before.addTimes, x), startTimes := before.startTimes[x := now],
                        latency := before.latency + [now - before.addTimes[x]])
  }

  /** The item's processing ends now, and its duration is the time since it started. */
  predicate Ends(before: Clocks, after: Clocks, x: Item, now: Time) {
    && x in before.startTimes
    && after == before.(startTimes := Erased(before.startTimes, x),
                        workDuration := before.workDuration + [now - before.startTimes[x]])
  }

  predicate SameStart(before: Clocks, after: Clocks, x: Item) {
    x in before.startTimes && x in after.startTimes && after.startTimes[x] == before.startTimes[x]
  }

  lemma RemoveAbsent(m: map<Item, Time>, x: Item)
    requires x !in m
    ensures Erased(m, x) == m
  {
  }

  class DefaultMetrics {
    var depth: int
    var adds: nat
    var latency: seq<int>
    var workDuration: seq<int>
    var addTimes: map<Item, Time>
    var processingStartTimes: map<Item, Time>
    var unfinishedWorkSeconds: int
    var longestRunningProcessor: int

    ghost function Readings(): Clocks
      reads this
    {
      Clocks(addTimes, processingStartTimes, latency, workDuration)
    }

    /** In step with the queue: the depth gauge is |dirty| (and not Len), every get has observed
        one latency and every done one duration. */
    ghost predicate Shadows(q: Queue)
      reads this
    {
      && depth == |q.dirty|
      && addTimes.Keys == q.dirty
      && processingStartTimes.Keys == q.processing
      && adds == |latency| + |q.dirty|
      && |latency| == |workDuration| + |q.processing|
    }

    lemma ShadowsKnowTimes(q: Queue, x: Item)
      requires Shadows(q)
      ensures x in q.dirty ==> x in addTimes
      ensures x in q.processing ==> x in processingStartTimes
    {
    }

    constructor ()
      ensures Shadows(EMPTY)
    {
      depth, adds := 0, 0;
      latency, workDuration := [], [];
      addTimes, processingStartTimes := map[], map[];
      unfinishedWorkSeconds, longestRunningProcessor := 0, 0;
    }

    /** The methods below say what each field becomes and, of any queue the metrics were in step
        with, what the queue has to do to stay so. */
    method Add(item: Item, now: Time, ghost q: Queue)
      modifies this
      ensures old(Shadows(q)) && item !in q.dirty ==> Shadows(q.(dirty := q.dirty + {item}))
      ensures depth == old(depth) + 1 && adds == old(adds) + 1
      ensures addTimes == if item in old(addTimes) then old(addTimes) else old(addTimes)[item := now]
      ensures latency == old(latency) && workDuration == old(workDuration)
      ensures processingStartTimes == old(processingStartTimes)
    {
      adds := adds + 1;
      depth := depth + 1;
      if item !in addTimes {
        addTimes := addTimes[item := now];
      }
    }

    method Get(item: Item, now: Time, ghost q: Queue)
      modifies this
      ensures old(Shadows(q)) && item in q.dirty && item !in q.processing ==>
                Shadows(q.(dirty := q.dirty - {item}, processing := q.processing + {item}))
      ensures depth == old(depth) - 1 && adds == old(adds)
      ensures processingStartTimes == old(processingStartTimes)[item := now]
      ensures addTimes == Erased(old(addTimes), item)
      ensures latency == if item in old(addTimes) then old(latency) + [now - old(addTimes)[item]] else old(latency)
      ensures workDuration == old(workDuration)
      ensures item in old(addTimes) ==> Starts(old(Readings()), Readings(), item, now)
    {
      hide Starts;
      depth := depth - 1;
      processingStartTimes := processingStartTimes[item := now];
      ObserveLatency(item, now, old(Readings()));
    }

    method ObserveLatency(item: Item, now: Time, ghost before: Clocks)
      requires Readings() == before.(startTimes := before.startTimes[item := now])
      modifies this`latency, this`addTimes
      ensures addTimes == Erased(old(addTimes), item)
      ensures latency == if item in old(addTimes) then old(latency) + [now - old(addTimes)[item]] else old(latency)
      ensures item in old(addTimes) ==> Starts(before, Readings(), item, now)
    {
      if item in addTimes {
        latency := latency + [now - addTimes[item]];
        addTimes := Erased(addTimes, item);
      } else {
        RemoveAbsent(addTimes, item);
      }
    }

    method Done(item: Item, now: Time, ghost q: Queue)
      modifies this
      ensures old(Shadows(q)) && item in q.processing ==> Shadows(q.(processing := q.processing - {item}))
      ensures workDuration == if item in old(processingStartTimes)
                              then old(workDuration) + [now - old(processingStartTimes)[item]]
                              else old(workDuration)
      ensures processingStartTimes == Erased(old(processingStartTimes), item)
      ensures depth == old(depth) && adds == old(adds) && latency == old(latency) && addTimes == old(addTimes)
    {
      if item in processingStartTimes {
        workDuration := workDuration + [now - processingStartTimes[item]];
        processingStartTimes := Erased(processingStartTimes, item);
      } else {
        RemoveAbsent(processingStartTimes, item);
      }
    }

    /** Visits the map in any order; the clock is read anew for each item. */
    method UpdateUnfinishedWork(at: Item -> Time)
      modifies this`unfinishedWorkSeconds, this`longestRunningProcessor
      ensures unfinishedWorkSeconds == SumOfAges(processingStartTimes, at, processingStartTimes.Keys)
      ensures IsOldest(processingStartTimes, at, longestRunningProcessor)
      ensures (forall x :: x in processingStartTimes ==> 0 <= Age(processingStartTimes, at, x)) ==>
                longestRunningProcessor <= unfinishedWorkSeconds
                                        <= |processingStartTimes.Keys| * longestRunningProcessor
    {
      var total, oldest := 0, 0;
      var starts := processingStartTimes;
      var left := starts.Keys;
      while left != {}
        invariant left <= starts.Keys
        invariant total + SumOfAges(starts, at, left) == SumOfAges(starts, at, starts.Keys)
        invariant oldest >= 0
        invariant oldest == 0 || exists x :: x in starts && Age(starts, at, x) == oldest
        invariant forall x :: x in starts && x !in left ==> Age(starts, at, x) <= oldest
      {
        var x :| x in left;
        SumOfAgesFrom(starts, at, left, x);
        var age := at(x) - starts[x];
        assert age == Age(starts, at, x);
        total := total + age;
        if age > oldest {
          oldest := age;
        }
        left := left - {x};
      }
      unfinishedWorkSeconds := total;
      longestRunningProcessor := oldest;
      if forall x :: x in starts ==> 0 <= Age(starts, at, x) {
        OldestBoundsTotal(starts, at, oldest);
      }
    }
  }
}
