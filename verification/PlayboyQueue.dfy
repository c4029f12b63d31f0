/** The queue itself: one method for each of its operations, updating its fields in place. */
module PlayboyQueues {
  import opened Lanes
  import opened Protocol
  import opened QueueSpec
  import opened LoopLog
  import M = Monitor
  import opened Metrics

  /** The library's limiter: fast for the first maxFastAttempts calls on an item, then slow. */
  class FastSlowRateLimiter {
    var failures: map<Item, nat>
    const maxFastAttempts: int
    const fastDelay: int
    const slowDelay: int

    constructor (fastDelay: int, slowDelay: int, maxFastAttempts: int)
      ensures failures == map[] && this.maxFastAttempts == maxFastAttempts
      ensures this.fastDelay == fastDelay && this.slowDelay == slowDelay
    {
      failures := map[];
      this.fastDelay, this.slowDelay, this.maxFastAttempts := fastDelay, slowDelay, maxFastAttempts;
    }

    method When(item: Item) returns (delay: int)
      modifies this
      ensures failures == old(failures)[item := Count(old(failures), item) + 1]
      ensures delay == if Count(failures, item) <= maxFastAttempts then fastDelay else slowDelay
    {
      failures := failures[item := Count(failures, item) + 1];
      if failures[item] <= maxFastAttempts {
        return fastDelay;
      }
      return slowDelay;
    }

    function NumRequeues(item: Item): nat
      reads this
    {
      Count(failures, item)
    }

    method Forget(item: Item)
      modifies this
      ensures failures == old(failures) - {item}
    {
      failures := failures - {item};
    }
  }

  /** The readings an operation takes and what the metrics observe by them. */
  predicate Observes(op: Op, q: Queue, before: Clocks, after: Clocks) {
    match op
    case AddOp(x, now) =>
      OnlyAdds(before, after) && (Accepts(q, x) ==> after.addTimes == before.addTimes[x := now])
    case GetOp(freshOnly, now) =>
      Ready(q, freshOnly) ==> Starts(before, after, Head(q, freshOnly), now)
    case DoneOp(x, now) => Ends(before, after, x, now)
    case _ => OnlyAdds(before, after)
  }

  class PlayboyQueue {
    var queueFresh: seq<Item>
    var queueStaled: seq<Item>
    var dirty: set<Item>
    var processing: set<Item>
    var shuttingDown: bool
    const freshThreshold: int
    var waitingForAddCh: seq<Request>
    var failures: map<Item, nat>
    const rateLimiter: FastSlowRateLimiter
    const metrics: DefaultMetrics

    /** What the lock guards. */
    ghost function Locked(): Queue
      reads this
    {
      Queue(queueFresh, queueStaled, dirty, processing, shuttingDown)
    }

    ghost function State(): QueueState
      reads this, rateLimiter
    {
      QueueState(Locked(), failures, rateLimiter.failures, waitingForAddCh)
    }

    /** The threshold and the delays, as the controller wires them. */
    ghost function Cfg(): Config {
      Config(freshThreshold, rateLimiter.fastDelay, rateLimiter.slowDelay, M.AsWritten)
    }

    ghost predicate Valid()
      reads this, rateLimiter, metrics
    {
      && rateLimiter.maxFastAttempts == freshThreshold
      && Lanes.Valid(Locked())
      && metrics.Shadows(Locked())
    }

    constructor (freshThreshold: int, rateLimiter: FastSlowRateLimiter)
      requires rateLimiter.maxFastAttempts == freshThreshold
      ensures Valid() && fresh(metrics)
      ensures this.freshThreshold == freshThreshold && this.rateLimiter == rateLimiter
      ensures State() == QueueState(EMPTY, map[], rateLimiter.failures, [])
      ensures queueFresh == [] && queueStaled == [] && dirty == {} && processing == {} && !shuttingDown
      ensures failures == map[] && waitingForAddCh == []
    {
      queueFresh, queueStaled := [], [];
      dirty, processing := {}, {};
      shuttingDown := false;
      this.freshThreshold := freshThreshold;
      waitingForAddCh := [];
      failures := map[];
      this.rateLimiter := rateLimiter;
      metrics := new DefaultMetrics();
    }

    // ---------- adding ----------

    method Add(item: Item, now: Time)
      requires Valid()
      modifies this, rateLimiter, metrics
      ensures Valid() && State() == AfterOp(Cfg(), old(State()), AddOp(item, now))
      ensures old(shuttingDown) || item in old(dirty) ==> State() == old(State())
      ensures !old(shuttingDown) && item !in old(dirty) ==>
        && dirty == old(dirty) + {item} && queueStaled == old(queueStaled)
        && queueFresh == (if item in processing then old(queueFresh) else old(queueFresh) + [item])
        && metrics.addTimes == old(metrics.addTimes)[item := now]
      ensures processing == old(processing) && shuttingDown == old(shuttingDown)
      ensures failures == old(failures) && rateLimiter.failures == old(rateLimiter.failures)
      ensures waitingForAddCh == old(waitingForAddCh) && OnlyAdds(old(metrics.Readings()), metrics.Readings())
    {
      AddTo(item, true, now);
    }

    /** The unexported add. */
    method AddTo(item: Item, asFresh: bool, now: Time)
      requires Valid()
      modifies this, rateLimiter, metrics
      ensures Valid() && State() == Added(old(State()), item, if asFresh then Fresh else Staled)
      ensures old(shuttingDown) || item in old(dirty) ==>
        State() == old(State()) && metrics.addTimes == old(metrics.addTimes)
      ensures !old(shuttingDown) && item !in old(dirty) ==>
        && dirty == old(dirty) + {item} && metrics.addTimes == old(metrics.addTimes)[item := now]
        && queueFresh == old(queueFresh) + (if item !in processing && asFresh then [item] else [])
        && queueStaled == old(queueStaled) + (if item !in processing && !asFresh then [item] else [])
      ensures processing == old(processing) && shuttingDown == old(shuttingDown)
      ensures failures == old(failures) && rateLimiter.failures == old(rateLimiter.failures)
      ensures waitingForAddCh == old(waitingForAddCh) && OnlyAdds(old(metrics.Readings()), metrics.Readings())
    {
      hide Lanes.Valid;
      ghost var q, lane := Locked(), if asFresh then Fresh else Staled;
      AddKeepsValid(q, item, lane);
      if shuttingDown {
        return;
      }
      if item in dirty {
        return;
      }
      metrics.Add(item, now, q);
      dirty := dirty + {item};
      if item in processing {
        assert Locked() == Lanes.Add(q, item, lane);
        return;
      }
      if asFresh {
        queueFresh := queueFresh + [item];
      } else {
        queueStaled := queueStaled + [item];
      }
      assert Locked() == Lanes.Add(q, item, lane);
    }

    predicate IsFresh(item: Item)
      reads this
    {
      Count(failures, item) <= freshThreshold
    }

    predicate ShuttingDown()
      reads this
    {
      shuttingDown
    }

    /** Counts both lanes: the items waiting for a worker, dirty and not being processed. */
    method Len() returns (n: nat)
      requires Valid()
      ensures n == |dirty - processing|
    {
      n := |queueFresh| + |queueStaled|;
      LenCountsWaitingItems(Locked());
    }

    method AddAfter(item: Item, duration: int, now: Time)
      requires Valid()
      modifies this, rateLimiter, metrics
      ensures Valid() && State() == AfterOp(Cfg(), old(State()), AddAfterOp(item, duration, now))
      ensures old(shuttingDown) || (duration <= 0 && item in old(dirty)) ==> State() == old(State())
      ensures !old(shuttingDown) && duration > 0 ==>
        waitingForAddCh == old(waitingForAddCh) + [Request(item, now + duration)] && Locked() == old(Locked())
      ensures !old(shuttingDown) && duration <= 0 && item !in old(dirty) ==>
        var toFresh := Count(failures, item) <= freshThreshold;
        && dirty == old(dirty) + {item} && waitingForAddCh == old(waitingForAddCh)
        && metrics.addTimes == old(metrics.addTimes)[item := now]
        && queueFresh == old(queueFresh) + (if item !in processing && toFresh then [item] else [])
        && queueStaled == old(queueStaled) + (if item !in processing && !toFresh then [item] else [])
      ensures processing == old(processing) && shuttingDown == old(shuttingDown)
      ensures failures == old(failures) && rateLimiter.failures == old(rateLimiter.failures)
      ensures OnlyAdds(old(metrics.Readings()), metrics.Readings())
    {
      hide Lanes.Valid;
      if ShuttingDown() {
        return;
      }
      if duration <= 0 {
        AddTo(item, IsFresh(item), now);
        return;
      }
      waitingForAddCh := waitingForAddCh + [Request(item, now + duration)];
    }

    /** What AddRateLimited does before it calls AddAfter: both counts go up, and the limiter answers. */
    method CountFailure(item: Item) returns (delay: int)
      requires Valid()
      modifies this`failures, rateLimiter
      ensures Valid() && State() == Failed(old(State()), item)
      ensures delay == DelayFor(Cfg(), Count(old(rateLimiter.failures), item) + 1)
      ensures failures == old(failures)[item := Count(old(failures), item) + 1]
      ensures rateLimiter.failures == old(rateLimiter.failures)[item := Count(old(rateLimiter.failures), item) + 1]
    {
      hide Lanes.Valid;
      failures := failures[item := Count(failures, item) + 1];
      delay := rateLimiter.When(item);
      assert Locked() == old(Locked());
    }

    method AddRateLimited(item: Item, now: Time)
      requires Valid()
      modifies this, rateLimiter, metrics
      ensures Valid() && State() == AfterOp(Cfg(), old(State()), AddRateLimitedOp(item, now))
      ensures failures == old(failures)[item := Count(old(failures), item) + 1]
      ensures rateLimiter.failures == old(rateLimiter.failures)[item := Count(old(rateLimiter.failures), item) + 1]
      ensures processing == old(processing) && shuttingDown == old(shuttingDown)
      ensures OnlyAdds(old(metrics.Readings()), metrics.Readings())
      ensures old(shuttingDown) ==> Locked() == old(Locked()) && waitingForAddCh == old(waitingForAddCh)
      ensures !old(shuttingDown) ==>
        var n := Count(old(rateLimiter.failures), item) + 1;
        var delay := if n <= rateLimiter.maxFastAttempts then rateLimiter.fastDelay else rateLimiter.slowDelay;
        var toFresh := Count(old(failures), item) + 1 <= freshThreshold;
        var appended := if delay <= 0 && item !in old(dirty) && item !in processing then [item] else [];
        && waitingForAddCh == old(waitingForAddCh) + (if delay > 0 then [Request(item, now + delay)] else [])
        && dirty == old(dirty) + (if delay > 0 then {} else {item})
        && queueFresh == old(queueFresh) + (if toFresh then appended else [])
        && queueStaled == old(queueStaled) + (if toFresh then [] else appended)
    {
      hide Lanes.Valid;
      var delay := CountFailure(item);
      hide PlayboyQueue.Valid, Lanes.Add, AddedAfter, OnlyAdds;
      AddAfter(item, delay, now);
    }

    method Forget(item: Item)
      requires Valid()
      modifies this, rateLimiter, metrics
      ensures Valid() && State() == AfterOp(Cfg(), old(State()), ForgetOp(item))
      ensures failures == old(failures) - {item} && rateLimiter.failures == old(rateLimiter.failures) - {item}
      ensures Locked() == old(Locked()) && waitingForAddCh == old(waitingForAddCh)
      ensures OnlyAdds(old(metrics.Readings()), metrics.Readings())
    {
      hide Lanes.Valid;
      failures := failures - {item};
      rateLimiter.Forget(item);
      assert Locked() == old(Locked());
    }

    function NumRequeues(item: Item): nat
      reads this, rateLimiter
    {
      rateLimiter.NumRequeues(item)
    }

    // ---------- getting and finishing ----------

    method PopHead(freshOnly: bool) returns (item: Item)
      requires Ready(Locked(), freshOnly)
      modifies this`queueFresh, this`queueStaled
      ensures item == Head(old(Locked()), freshOnly)
      ensures queueFresh == Take(old(Locked()), freshOnly).queueFresh
      ensures queueStaled == Take(old(Locked()), freshOnly).queueStaled
    {
      if |queueFresh| > 0 {
        item, queueFresh := queueFresh[0], queueFresh[1..];
      } else {
        item, queueStaled := queueStaled[0], queueStaled[1..];
      }
    }

    method StartProcessing(item: Item, now: Time)
      requires metrics.Shadows(Locked()) && item in dirty && item !in processing
      modifies this`processing, this`dirty, metrics
      ensures metrics.Shadows(Locked()) && Starts(old(metrics.Readings()), metrics.Readings(), item, now)
      ensures processing == old(processing) + {item} && dirty == old(dirty) - {item}
    {
      ghost var q := Locked();
      metrics.ShadowsKnowTimes(q, item);
      hide DefaultMetrics.Shadows, Starts;
      metrics.Get(item, now, q);
      processing := processing + {item};
      dirty := dirty - {item};
      assert Locked() == q.(dirty := q.dirty - {item}, processing := q.processing + {item});
    }

    /** Get's critical section once something can be taken. */
    method TakeNext(freshOnly: bool, now: Time) returns (item: Item)
      requires Valid() && Ready(Locked(), freshOnly)
      modifies this, rateLimiter, metrics
      ensures Valid() && State() == Got(old(State()), freshOnly)
      ensures item == Head(old(Locked()), freshOnly) && item in processing && item in old(dirty)
      ensures item !in old(processing) && Starts(old(metrics.Readings()), metrics.Readings(), item, now)
    {
      hide Lanes.Valid;
      ghost var q := Locked();
      TakeKeepsValid(q, freshOnly);
      TakeMeans(q, freshOnly);
      item := PopHead(freshOnly);
      hide Take, Head;
      StartProcessing(item, now);
      assert Locked() == Take(q, freshOnly);
    }

    /** Get, and with freshOnly GetFresh. `rounds` is what the other goroutines do during each of
        the waits, up to the wake-up that ends it. */
    method Get(freshOnly: bool, rounds: seq<seq<Op>>, now: Time) returns (r: GetResult)
      requires Valid()
      modifies this, rateLimiter, metrics
      ensures Valid() && (State(), r) == AfterGet(Cfg(), old(State()), freshOnly, rounds)
      ensures r.GotItem? ==>
        r.item in metrics.processingStartTimes && metrics.processingStartTimes[r.item] == now
      ensures old(shuttingDown) && old(queueFresh) == [] && (freshOnly || old(queueStaled) == []) ==>
        r == GotShutDown && State() == old(State())
    {
      hide Lanes.Valid;
      var i := 0;
      while (if freshOnly then |queueFresh| == 0 else |queueFresh| + |queueStaled| == 0) && !shuttingDown
        invariant 0 <= i <= |rounds| && Valid()
        invariant AfterWaits(Cfg(), State(), freshOnly, rounds[i..])
               == AfterWaits(Cfg(), old(State()), freshOnly, rounds)
        decreases |rounds| - i
      {
        if i == |rounds| {
          return Asleep;
        }
        var _ := Wait(rounds[i], {});
        i := i + 1;
      }
      if |queueFresh| > 0 || (!freshOnly && |queueStaled| > 0) {
        var item := TakeNext(freshOnly, now);
        return GotItem(item);
      }
      return GotShutDown;
    }

    method Done(item: Item, now: Time)
      requires Valid() && item in processing
      modifies this, rateLimiter, metrics
      ensures Valid() && State() == AfterOp(Cfg(), old(State()), DoneOp(item, now))
      ensures processing == old(processing) - {item} && dirty == old(dirty) && shuttingDown == old(shuttingDown)
      ensures var again := if item in dirty then [item] else [];
              var often := Count(rateLimiter.failures, item) > freshThreshold;
              && queueFresh == old(queueFresh) + (if often then again else [])
              && queueStaled == old(queueStaled) + (if often then [] else again)
      ensures failures == old(failures) && rateLimiter.failures == old(rateLimiter.failures)
      ensures waitingForAddCh == old(waitingForAddCh)
      ensures Ends(old(metrics.Readings()), metrics.Readings(), item, now)
    {
      hide Lanes.Valid;
      ghost var q, lane := Locked(), DoneLane(Cfg(), NumRequeues(item));
      FinishKeepsValid(q, item, lane);
      metrics.Done(item, now, q);
      processing := processing - {item};
      if item in dirty {
        if rateLimiter.NumRequeues(item) > freshThreshold {
          queueFresh := queueFresh + [item];
        } else {
          queueStaled := queueStaled + [item];
        }
      }
      assert Locked() == Lanes.Finish(q, item, lane);
    }

    // ---------- shutting down ----------

    method ShutDown()
      requires Valid()
      modifies this, rateLimiter, metrics
      ensures Valid() && State() == AfterOp(Cfg(), old(State()), ShutDownOp)
      ensures shuttingDown && queueFresh == old(queueFresh) && queueStaled == old(queueStaled)
      ensures dirty == old(dirty) && processing == old(processing)
      ensures OnlyAdds(old(metrics.Readings()), metrics.Readings())
      ensures waitingForAddCh == old(waitingForAddCh)
      ensures failures == old(failures) && rateLimiter.failures == old(rateLimiter.failures)
    {
      shuttingDown := true;
    }

    method ShutDownWithDrain(rounds: seq<seq<Op>>) returns (returned: bool)
      requires Valid()
      modifies this, rateLimiter, metrics
      ensures Valid()
      ensures (State(), returned) == DrainWaits(Cfg(), AfterOp(Cfg(), old(State()), ShutDownOp), rounds)
    {
      hide Lanes.Valid;
      ShutDown();
      var i := 0;
      while processing != {}
        invariant 0 <= i <= |rounds| && Valid()
        invariant DrainWaits(Cfg(), State(), rounds[i..])
               == DrainWaits(Cfg(), AfterOp(Cfg(), old(State()), ShutDownOp), rounds)
        decreases |rounds| - i
      {
        if i == |rounds| {
          return false;
        }
        var signalled := Wait(rounds[i], {});
        if !signalled {
          return false;
        }
        i := i + 1;
      }
      return true;
    }

    /** One tick of updateUnfinishedWorkLoop; false ends that loop. */
    method UnfinishedWorkTick(at: Item -> Time) returns (goOn: bool)
      requires Valid()
      modifies metrics
      ensures Valid() && State() == old(State()) && goOn == !shuttingDown
      ensures goOn ==> metrics.unfinishedWorkSeconds == SumOfAges(metrics.processingStartTimes, at, processing)
      ensures goOn ==> IsOldest(metrics.processingStartTimes, at, metrics.longestRunningProcessor)
      ensures goOn ==> metrics.processingStartTimes.Keys == processing
    {
      if shuttingDown {
        return false;
      }
      metrics.UpdateUnfinishedWork(at);
      return true;
    }

    // ---------- what the waiting loop does to the queue ----------

    method Receive() returns (r: Request)
      requires Valid() && State().channel != []
      modifies this, rateLimiter, metrics
      ensures Valid() && Possible(Cfg(), old(State()), Received(r.item, r.readyAt))
      ensures State() == AfterAct(Cfg(), old(State()), Received(r.item, r.readyAt))
      ensures old(waitingForAddCh) == [r] + waitingForAddCh && Locked() == old(Locked())
      ensures failures == old(failures) && rateLimiter.failures == old(rateLimiter.failures)
    {
      r := waitingForAddCh[0];
      waitingForAddCh := waitingForAddCh[1..];
    }

    method PassOn(item: Item, readyAt: Time, now: Time)
      requires Valid()
      modifies this, rateLimiter, metrics
      ensures Valid() && State() == AfterAct(Cfg(), old(State()), PassedOn(item, readyAt, now))
      ensures old(shuttingDown) || item in old(dirty) ==> State() == old(State())
      ensures !old(shuttingDown) && item !in old(dirty) ==>
        var toFresh := Count(failures, item) <= freshThreshold;
        && dirty == old(dirty) + {item} && metrics.addTimes == old(metrics.addTimes)[item := now]
        && queueFresh == old(queueFresh) + (if item !in processing && toFresh then [item] else [])
        && queueStaled == old(queueStaled) + (if item !in processing && !toFresh then [item] else [])
      ensures processing == old(processing) && shuttingDown == old(shuttingDown)
      ensures failures == old(failures) && rateLimiter.failures == old(rateLimiter.failures)
      ensures waitingForAddCh == old(waitingForAddCh) && OnlyAdds(old(metrics.Readings()), metrics.Readings())
    {
      AddTo(item, IsFresh(item), now);
    }

    /** Everything a log says happened to the queue, done by the queue's own methods. */
    method PerformLog(log: seq<Act>)
      requires Valid() && Explains(Cfg(), State(), log, Replay(Cfg(), State(), log))
      modifies this, rateLimiter, metrics
      ensures Valid() && Explains(Cfg(), old(State()), log, State())
    {
      hide PlayboyQueue.Valid;
      var i := 0;
      while i < |log|
        invariant 0 <= i <= |log| && Valid()
        invariant State() == Replay(Cfg(), old(State()), log[..i])
      {
        assert Possible(Cfg(), State(), log[i]);
        assert log[..i + 1][..i] == log[..i];
        match log[i] {
          case Received(_, _) => var _ := Receive();
          case PassedOn(x, readyAt, now) => PassOn(x, readyAt, now);
          case Slept(_, _) =>
          case Others(ops) => var _ := Wait(ops, {});
        }
        i := i + 1;
      }
      assert log[..|log|] == log;
    }

    // ---------- the other goroutines ----------

    /** While cond.Wait is asleep, or a caller busy with the items in `mine`, others use the queue.
        The result says whether one of them signals. */
    method Wait(ops: seq<Op>, mine: set<Item>) returns (signalled: bool)
      requires Valid()
      modifies this, rateLimiter, metrics
      ensures Valid() && State() == AfterOthers(Cfg(), old(State()), ops, mine)
      ensures signalled == OthersSignal(Cfg(), old(State()), ops, mine)
      ensures forall x :: x in mine && x in old(processing) ==>
        SameStart(old(metrics.Readings()), metrics.Readings(), x)
    {
      hide Lanes.Valid;
      var i := 0;
      signalled := false;
      while i < |ops|
        invariant 0 <= i <= |ops| && Valid()
        invariant AfterOthers(Cfg(), State(), ops[i..], mine) == AfterOthers(Cfg(), old(State()), ops, mine)
        invariant (signalled || OthersSignal(Cfg(), State(), ops[i..], mine))
               == OthersSignal(Cfg(), old(State()), ops, mine)
        invariant forall x :: x in mine && x in old(processing) ==>
          x in processing && SameStart(old(metrics.Readings()), metrics.Readings(), x)
      {
        if !ops[i].DoneOp? || (ops[i].item in processing && ops[i].item !in mine) {
          var signals := Perform(ops[i]);
          signalled := signalled || signals;
        }
        i := i + 1;
      }
    }

    /** Whether the operation reaches a call of Signal, or the Broadcast of ShutDown. */
    function ReachesSignal(op: Op): (r: bool)
      requires Valid()
      reads this, rateLimiter, metrics
      ensures r == OpSignals(Cfg(), State(), op)
    {
      match op
      case AddOp(x, _) => AddReaches(x)
      case AddAfterOp(x, delay, _) => delay <= 0 && AddReaches(x)
      case AddRateLimitedOp(x, _) =>
        var count := Count(rateLimiter.failures, x) + 1;
        (if count <= freshThreshold then rateLimiter.fastDelay else rateLimiter.slowDelay) <= 0 && AddReaches(x)
      case DoneOp(x, _) => x in dirty
      case ShutDownOp => !shuttingDown
      case _ => false
    }

    predicate AddReaches(item: Item)
      reads this
    {
      !shuttingDown && item !in dirty && item !in processing
    }

    /** Any operation by anybody keeps the queue valid and its metrics in step with it. */
    method Perform(op: Op) returns (signals: bool)
      requires Valid() && Legal(State(), op)
      modifies this, rateLimiter, metrics
      ensures Valid() && State() == AfterOp(Cfg(), old(State()), op)
      ensures signals == OpSignals(Cfg(), old(State()), op)
      ensures forall x :: x in old(processing) && !(op.DoneOp? && op.item == x) ==>
        SameStart(old(metrics.Readings()), metrics.Readings(), x)
      ensures Observes(op, old(Locked()), old(metrics.Readings()), metrics.Readings())
    {
      hide Lanes.Valid;
      assert metrics.processingStartTimes.Keys == processing;
      signals := ReachesSignal(op);
      hide PlayboyQueue.Valid, AfterOp;
      match op {
        case GetOp(_, _) => PerformGet(op);
        case DoneOp(x, now) => Done(x, now);
        case _ => PerformOther(op);
      }
    }

    method PerformGet(op: Op)
      requires Valid() && op.GetOp?
      modifies this, rateLimiter, metrics
      ensures Valid() && State() == AfterOp(Cfg(), old(State()), op)
      ensures Observes(op, old(Locked()), old(metrics.Readings()), metrics.Readings())
      ensures forall x :: x in old(processing) ==> SameStart(old(metrics.Readings()), metrics.Readings(), x)
    {
      hide Lanes.Valid;
      assert metrics.processingStartTimes.Keys == processing;
      hide PlayboyQueue.Valid, Take, Head;
      if |queueFresh| == 0 && (op.freshOnly || |queueStaled| == 0) {
        return;
      }
      var _ := TakeNext(op.freshOnly, op.now);
    }

    /** The operations that neither start nor end the processing of an item. */
    method PerformOther(op: Op)
      requires Valid() && !op.GetOp? && !op.DoneOp?
      modifies this, rateLimiter, metrics
      ensures Valid() && State() == AfterOp(Cfg(), old(State()), op)
      ensures OnlyAdds(old(metrics.Readings()), metrics.Readings())
      ensures Observes(op, old(Locked()), old(metrics.Readings()), metrics.Readings())
    {
      hide PlayboyQueue.Valid, AfterOp;
      match op {
        case AddOp(x, now) => Add(x, now);
        case AddAfterOp(x, delay, now) => AddAfter(x, delay, now);
        case AddRateLimitedOp(x, now) => AddRateLimited(x, now);
        case ForgetOp(x) => Forget(x);
        case ShutDownOp => ShutDown();
      }
    }
  }
}
