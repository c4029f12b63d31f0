/** A worker: the loop that gets an item, reconciles it and decides what becomes of it. */
module Workers {
  import opened Lanes
  import opened Protocol
  import opened QueueSpec
  import opened PlayboyQueues
  import opened LoopLog
  import opened Metrics

  /** What one turn of the loop meets: the waits of its Get, what reconcile returns for an item, the
      readings of the clock, and what others do meanwhile: others(0) during reconcile, others(1) and
      others(2) before the calls that follow Forget, others(3) before Done. Get reads clock(0), the
      call of AddRateLimited or AddAfter clock(1), that of Add clock(2), and Done clock(3). */
  datatype Turn = Turn(rounds: seq<seq<Op>>, reconcile: Item -> Outcome, others: nat -> seq<Op>, clock: nat -> Time)

  datatype TurnResult = Handled(item: Item) | Stopped | Waiting

  const NOBODY: nat -> seq<Op> := _ => []

  /** What the worker does with an item it holds, before Done. */
  function Decided(cfg: Config, s: QueueState, x: Item, out: Outcome, now: Time, others: nat -> seq<Op>): QueueState {
    match out
    case Failure => AddedRateLimited(cfg, s, x, now)
    case Success(requeue, after) =>
      var f := Forgotten(s, x);
      if after > 0 then
        var g := AddedAfter(cfg, AfterOthers(cfg, f, others(1), {x}), x, after, now);
        Added(AfterOthers(cfg, g, others(2), {x}), x, Fresh)
      else if requeue then Added(AfterOthers(cfg, f, others(1), {x}), x, Fresh)
      else f
  }

  /** The state in which it calls Done. */
  function Ending(cfg: Config, s: QueueState, x: Item, out: Outcome, now: Time, others: nat -> seq<Op>): QueueState {
    AfterOthers(cfg, Decided(cfg, s, x, out, now, others), others(3), {x})
  }

  function Processed(cfg: Config, s: QueueState, x: Item, out: Outcome, now: Time, others: nat -> seq<Op>): QueueState {
    Finished(cfg, Ending(cfg, s, x, out, now, others), x)
  }

  function AfterTurn(cfg: Config, s: QueueState, freshOnly: bool, turn: Turn): (QueueState, TurnResult) {
    var (t, r) := AfterGet(cfg, s, freshOnly, turn.rounds);
    match r
    case GotShutDown => (t, Stopped)
    case Asleep => (t, Waiting)
    case GotItem(x) =>
      var held := AfterOthers(cfg, t, turn.others(0), {x});
      (Processed(cfg, held, x, turn.reconcile(x), turn.clock(1), turn.others), Handled(x))
  }

  // ---------- what others cannot do to an item in hand ----------

  /** From s to t the item in hand stayed in hand, dirt stuck to it, requests were only added, and
      once shut down nothing became dirty. */
  predicate KeptInHand(s: QueueState, t: QueueState, x: Item) {
    && x in s.lanes.processing && x in t.lanes.processing
    && (x in s.lanes.dirty ==> x in t.lanes.dirty)
    && (s.lanes.shuttingDown ==> t.lanes.shuttingDown && (x in t.lanes.dirty ==> x in s.lanes.dirty))
    && s.channel <= t.channel
  }

  lemma OpKeepsInHand(cfg: Config, s: QueueState, op: Op, x: Item)
    requires Valid(s.lanes) && x in s.lanes.processing && MayDo(s, op, {x})
    ensures KeptInHand(s, AfterOp(cfg, s, op), x)
  {
    if op.GetOp? && Ready(s.lanes, op.freshOnly) {
      TakeKeepsValid(s.lanes, op.freshOnly);
    }
  }

  lemma {:induction false} OthersKeepInHand(cfg: Config, s: QueueState, ops: seq<Op>, x: Item)
    requires Valid(s.lanes) && x in s.lanes.processing
    ensures var t := AfterOthers(cfg, s, ops, {x}); Valid(t.lanes) && KeptInHand(s, t, x)
    decreases |ops|
  {
    if ops != [] {
      hide Valid;
      if MayDo(s, ops[0], {x}) {
        var t := AfterOp(cfg, s, ops[0]);
        OpKeepsValid(cfg, s, ops[0]);
        OpKeepsInHand(cfg, s, ops[0], x);
        hide AfterOp;
        OthersKeepInHand(cfg, t, ops[1..], x);
      } else {
        OthersKeepInHand(cfg, s, ops[1..], x);
      }
    }
  }

  lemma AddingKeepsInHand(cfg: Config, s: QueueState, x: Item, after: int, now: Time)
    requires Valid(s.lanes) && x in s.lanes.processing
    ensures KeptInHand(s, AddedAfter(cfg, s, x, after, now), x) && Valid(AddedAfter(cfg, s, x, after, now).lanes)
    ensures KeptInHand(s, Added(s, x, Fresh), x) && Valid(Added(s, x, Fresh).lanes)
    ensures x in Added(s, x, Fresh).lanes.dirty <==> x in s.lanes.dirty || !s.lanes.shuttingDown
  {
    AddKeepsValid(s.lanes, x, Fresh);
    AddKeepsValid(s.lanes, x, LaneOf(cfg, s, x));
  }

  /** Nor can they between the worker's calls. */
  lemma DecisionKeepsInHand(cfg: Config, s: QueueState, x: Item, out: Outcome, now: Time, others: nat -> seq<Op>)
    requires Valid(s.lanes) && x in s.lanes.processing
    ensures var d := Decided(cfg, s, x, out, now, others); Valid(d.lanes) && KeptInHand(s, d, x)
  {
    hide Valid, AfterOthers, AddedAfter;
    match out {
      case Failure =>
        AddingKeepsInHand(cfg, Failed(s, x), x, DelayFor(cfg, Count(Failed(s, x).limiter, x)), now);
      case Success(requeue, after) =>
        var f := Forgotten(s, x);
        OthersKeepInHand(cfg, f, others(1), x);
        var g := AfterOthers(cfg, f, others(1), {x});
        AddingKeepsInHand(cfg, g, x, after, now);
        if after > 0 {
          var h := AddedAfter(cfg, g, x, after, now);
          OthersKeepInHand(cfg, h, others(2), x);
          AddingKeepsInHand(cfg, AfterOthers(cfg, h, others(2), {x}), x, after, now);
        }
    }
  }

  lemma ValidQueue(q: PlayboyQueue)
    requires q.Valid()
    ensures Valid(q.State().lanes) && q.metrics.processingStartTimes.Keys == q.processing
  {
  }

  method Decide(q: PlayboyQueue, item: Item, out: Outcome, clock: nat -> Time, others: nat -> seq<Op>)
    requires q.Valid() && item in q.processing
    modifies q, q.rateLimiter, q.metrics
    ensures q.Valid() && q.State() == Decided(q.Cfg(), old(q.State()), item, out, clock(1), others)
    ensures SameStart(old(q.metrics.Readings()), q.metrics.Readings(), item)
  {
    ValidQueue(q);
    hide Lanes.Valid, AfterOthers, PlayboyQueue.Valid;
    if out.Failure? {
      q.AddRateLimited(item, clock(1));
    } else {
      q.Forget(item);
      if out.requeue || out.requeueAfter > 0 {
        var _ := q.Wait(others(1), {item});
        if out.requeueAfter > 0 {
          q.AddAfter(item, out.requeueAfter, clock(1));
          var _ := q.Wait(others(2), {item});
        }
        q.Add(item, clock(2));
      }
    }
  }

  /** What follows Get: the reconcile, the decision, and Done. */
  method HandleItem(q: PlayboyQueue, item: Item, turn: Turn)
    requires q.Valid() && item in q.processing
    modifies q, q.rateLimiter, q.metrics
    ensures q.Valid()
    ensures var held := AfterOthers(q.Cfg(), old(q.State()), turn.others(0), {item});
            q.State() == Processed(q.Cfg(), held, item, turn.reconcile(item), turn.clock(1), turn.others)
    ensures item in old(q.metrics.processingStartTimes)
    ensures var seen := q.metrics.workDuration;
            seen != [] && seen[|seen| - 1] == turn.clock(3) - old(q.metrics.processingStartTimes)[item]
  {
    hide Lanes.Valid, AfterOthers, Decided, PlayboyQueue.Valid;
    var out := turn.reconcile(item);
    ValidQueue(q);
    OthersKeepInHand(q.Cfg(), q.State(), turn.others(0), item);
    var _ := q.Wait(turn.others(0), {item});
    ValidQueue(q);
    DecisionKeepsInHand(q.Cfg(), q.State(), item, out, turn.clock(1), turn.others);
    Decide(q, item, out, turn.clock, turn.others);
    ValidQueue(q);
    OthersKeepInHand(q.Cfg(), q.State(), turn.others(3), item);
    var _ := q.Wait(turn.others(3), {item});
    q.Done(item, turn.clock(3));
  }

  /** processItemFromQueue, and with freshOnly the same on the FreshOnlyInterface. */
  method ProcessItemFromQueue(q: PlayboyQueue, freshOnly: bool, turn: Turn) returns (r: TurnResult)
    requires q.Valid()
    modifies q, q.rateLimiter, q.metrics
    ensures q.Valid() && (q.State(), r) == AfterTurn(q.Cfg(), old(q.State()), freshOnly, turn)
    ensures r.Handled? ==>
      var seen := q.metrics.workDuration; seen != [] && seen[|seen| - 1] == turn.clock(3) - turn.clock(0)
  {
    hide Lanes.Valid, AfterOthers, Decided, Processed, PlayboyQueue.Valid;
    var got := q.Get(freshOnly, turn.rounds, turn.clock(0));
    if got.GotShutDown? {
      return Stopped;
    }
    if got.Asleep? {
      return Waiting;
    }
    HandleItem(q, got.item, turn);
    return Handled(got.item);
  }

  // ---------- what one turn means ----------

  lemma DoneQueuesTheDirty(cfg: Config, s: QueueState, x: Item)
    requires Valid(s.lanes) && x in s.lanes.processing
    ensures var t := Finished(cfg, s, x);
            && Valid(t.lanes) && t.lanes.processing == s.lanes.processing - {x} && t.lanes.dirty == s.lanes.dirty
            && t.channel == s.channel && (t.lanes.IsQueued(x) <==> x in s.lanes.dirty)
  {
    FinishKeepsValid(s.lanes, x, DoneLane(cfg, Count(s.limiter, x)));
  }

  /** A failure raises both retry counts by one and asks for exactly one re-add: through the waiting
      loop after the limiter's delay, at once if that delay is not positive, and not at all once
      the queue is shutting down. Whatever others do before Done, the request stands, Done lets go
      of the item and queues it again if it is dirty, as it is after an immediate re-add. */
  lemma FailureContract(cfg: Config, s: QueueState, x: Item, now: Time, others: nat -> seq<Op>)
    requires Valid(s.lanes) && x in s.lanes.processing
    ensures var d := Decided(cfg, s, x, Failure, now, others);
            var n := Count(s.limiter, x) + 1;
            && Count(d.limiter, x) == n && Count(d.failures, x) == Count(s.failures, x) + 1
            && (forall y :: y != x ==>
                  Count(d.limiter, y) == Count(s.limiter, y) && Count(d.failures, y) == Count(s.failures, y))
            && d.channel == (if s.lanes.shuttingDown || DelayFor(cfg, n) <= 0 then s.channel
                             else s.channel + [Request(x, now + DelayFor(cfg, n))])
            && d.lanes == (if s.lanes.shuttingDown || DelayFor(cfg, n) > 0 then s.lanes
                           else s.lanes.(dirty := s.lanes.dirty + {x}))
    ensures var d, e, t := Decided(cfg, s, x, Failure, now, others), Ending(cfg, s, x, Failure, now, others),
                           Processed(cfg, s, x, Failure, now, others);
            && KeptInHand(d, e, x)
            && t.lanes.processing == e.lanes.processing - {x} && t.channel == e.channel
            && (t.lanes.IsQueued(x) <==> x in e.lanes.dirty)
            && (others(3) == [] ==> e == d)
  {
    var d := Decided(cfg, s, x, Failure, now, others);
    DecisionKeepsInHand(cfg, s, x, Failure, now, others);
    OthersKeepInHand(cfg, d, others(3), x);
    DoneQueuesTheDirty(cfg, Ending(cfg, s, x, Failure, now, others), x);
  }

  /** A success clears both retry counts. Whatever others do between the worker's calls, Done queues
      an item that was dirty, or for which a requeue was asked with the queue not shut down by
      then; on a queue shut down before, it queues no other. */
  lemma SuccessContract(cfg: Config, s: QueueState, x: Item, requeue: bool, after: int, now: Time,
                        others: nat -> seq<Op>)
    requires Valid(s.lanes) && x in s.lanes.processing
    ensures var out := Success(requeue, after);
            var e, t := Ending(cfg, s, x, out, now, others), Processed(cfg, s, x, out, now, others);
            && t.lanes.processing == e.lanes.processing - {x}
            && (t.lanes.IsQueued(x) <==> x in t.lanes.dirty)
            && (x in s.lanes.dirty || ((requeue || after > 0) && !e.lanes.shuttingDown) ==> t.lanes.IsQueued(x))
            && (s.lanes.shuttingDown && x !in s.lanes.dirty ==> !t.lanes.IsQueued(x))
            && s.channel <= t.channel
            && (after > 0 && !e.lanes.shuttingDown ==> Request(x, now + after) in t.channel)
  {
    var out := Success(requeue, after);
    var d, e := Decided(cfg, s, x, out, now, others), Ending(cfg, s, x, out, now, others);
    DecisionKeepsInHand(cfg, s, x, out, now, others);
    OthersKeepInHand(cfg, d, others(3), x);
    DoneQueuesTheDirty(cfg, e, x);
    if (requeue || after > 0) && !e.lanes.shuttingDown {
      RequeueIsMade(cfg, s, x, out, now, others);
    }
  }

  lemma RequeueIsMade(cfg: Config, s: QueueState, x: Item, out: Outcome, now: Time, others: nat -> seq<Op>)
    requires Valid(s.lanes) && x in s.lanes.processing && out.Success? && (out.requeue || out.requeueAfter > 0)
    ensures var d := Decided(cfg, s, x, out, now, others);
            !d.lanes.shuttingDown ==>
              x in d.lanes.dirty && (out.requeueAfter > 0 ==> Request(x, now + out.requeueAfter) in d.channel)
  {
    var after := out.requeueAfter;
    var f := Forgotten(s, x);
    OthersKeepInHand(cfg, f, others(1), x);
    var g := AfterOthers(cfg, f, others(1), {x});
    AddingKeepsInHand(cfg, g, x, after, now);
    if after > 0 {
      var h := AddedAfter(cfg, g, x, after, now);
      OthersKeepInHand(cfg, h, others(2), x);
      if !h.lanes.shuttingDown {
        assert h.channel[|g.channel|] == Request(x, now + after);
      }
    }
  }

  /** The same with nobody interfering, exactly. */
  lemma QuietSuccess(cfg: Config, s: QueueState, x: Item, requeue: bool, after: int, now: Time)
    requires Valid(s.lanes) && x in s.lanes.processing
    ensures var t := Processed(cfg, s, x, Success(requeue, after), now, NOBODY);
            && Count(t.limiter, x) == 0 && Count(t.failures, x) == 0
            && t.lanes.processing == s.lanes.processing - {x}
            && (t.lanes.IsQueued(x) <==> x in s.lanes.dirty || (!s.lanes.shuttingDown && (requeue || after > 0)))
            && t.channel == (if s.lanes.shuttingDown || after <= 0 then s.channel
                             else s.channel + [Request(x, now + after)])
  {
  }

  /** A turn gets an item and lets go of it: one Get, one Done, whatever others do in between. */
  lemma TurnLetsGo(cfg: Config, s: QueueState, freshOnly: bool, turn: Turn)
    requires Valid(s.lanes)
    ensures var (t, r) := AfterTurn(cfg, s, freshOnly, turn);
            && Valid(t.lanes)
            && (r.Handled? ==> r.item !in t.lanes.processing)
            && (r.Stopped? ==> t.lanes.shuttingDown && !Ready(t.lanes, freshOnly))
            && (r.Waiting? ==> MustWait(t, freshOnly) && !s.lanes.shuttingDown)
  {
    GetMeans(cfg, s, freshOnly, turn.rounds);
    var (t, r) := AfterGet(cfg, s, freshOnly, turn.rounds);
    if r.GotItem? {
      hide Valid;
      var x, out := r.item, turn.reconcile(r.item);
      OthersKeepInHand(cfg, t, turn.others(0), x);
      var held := AfterOthers(cfg, t, turn.others(0), {x});
      DecisionKeepsInHand(cfg, held, x, out, turn.clock(1), turn.others);
      OthersKeepInHand(cfg, Decided(cfg, held, x, out, turn.clock(1), turn.others), turn.others(3), x);
      DoneQueuesTheDirty(cfg, Ending(cfg, held, x, out, turn.clock(1), turn.others), x);
    }
  }

  /** None of these operations touches the counts of x. */
  predicate LeaveCounts(ops: seq<Op>, x: Item) {
    forall i :: 0 <= i < |ops| && (ops[i].AddRateLimitedOp? || ops[i].ForgetOp?) ==> ops[i].item != x
  }

  predicate SameCounts(s: QueueState, t: QueueState, x: Item) {
    Count(t.failures, x) == Count(s.failures, x) && Count(t.limiter, x) == Count(s.limiter, x)
  }

  lemma {:induction false} OthersLeaveCounts(cfg: Config, s: QueueState, ops: seq<Op>, mine: set<Item>, x: Item)
    requires LeaveCounts(ops, x)
    ensures SameCounts(s, AfterOthers(cfg, s, ops, mine), x)
    decreases |ops|
  {
    if ops != [] {
      assert LeaveCounts(ops[1..], x);
      OthersLeaveCounts(cfg, if MayDo(s, ops[0], mine) then AfterOp(cfg, s, ops[0]) else s, ops[1..], mine, x);
    }
  }

  /** A turn handles the item its Get returned, and by what reconcile says of that item: if nobody else
      touches its counts, the turn leaves both one higher after a failure, and zero after a success. */
  lemma TurnGoesByTheOutcome(cfg: Config, s: QueueState, freshOnly: bool, turn: Turn)
    ensures var (t, r) := AfterTurn(cfg, s, freshOnly, turn);
            var (g, got) := AfterGet(cfg, s, freshOnly, turn.rounds);
            && (r.Stopped? <==> got.GotShutDown?) && (r.Waiting? <==> got.Asleep?)
            && (!r.Handled? ==> t == g)
            && (r.Handled? ==>
                  && got == GotItem(r.item)
                  && ((forall i :: 0 <= i < 4 ==> LeaveCounts(turn.others(i), r.item)) ==>
                        var out := turn.reconcile(r.item);
                        && Count(t.failures, r.item) == (if out.Failure? then Count(g.failures, r.item) + 1 else 0)
                        && Count(t.limiter, r.item) == (if out.Failure? then Count(g.limiter, r.item) + 1 else 0)))
  {
    var (t, r) := AfterTurn(cfg, s, freshOnly, turn);
    if r.Handled? && forall i :: 0 <= i < 4 ==> LeaveCounts(turn.others(i), r.item) {
      var x, out := r.item, turn.reconcile(r.item);
      var g := AfterGet(cfg, s, freshOnly, turn.rounds).0;
      OthersLeaveCounts(cfg, g, turn.others(0), {x}, x);
      var held := AfterOthers(cfg, g, turn.others(0), {x});
      DecisionCounts(cfg, held, x, out, turn.clock(1), turn.others);
      OthersLeaveCounts(cfg, Decided(cfg, held, x, out, turn.clock(1), turn.others), turn.others(3), {x}, x);
    }
  }

  lemma DecisionCounts(cfg: Config, s: QueueState, x: Item, out: Outcome, now: Time, others: nat -> seq<Op>)
    requires LeaveCounts(others(1), x) && LeaveCounts(others(2), x)
    ensures var d := Decided(cfg, s, x, out, now, others);
            && Count(d.failures, x) == (if out.Failure? then Count(s.failures, x) + 1 else 0)
            && Count(d.limiter, x) == (if out.Failure? then Count(s.limiter, x) + 1 else 0)
  {
    if out.Success? {
      var f := Forgotten(s, x);
      OthersLeaveCounts(cfg, f, others(1), {x}, x);
      var g := AddedAfter(cfg, AfterOthers(cfg, f, others(1), {x}), x, out.requeueAfter, now);
      OthersLeaveCounts(cfg, g, others(2), {x}, x);
    }
  }

  /** What the documentation of RequeueAfter promises: the item comes back after the delay. */
  function ProcessedAsPromised(cfg: Config, s: QueueState, x: Item, after: int, now: Time): QueueState {
    Finished(cfg, AddedAfter(cfg, Forgotten(s, x), x, after, now), x)
  }

  /** The code also adds the item at once. It keeps the promise exactly when that Add does nothing:
      the queue is shutting down, or the item became dirty while it was being reconciled. */
  lemma RequeueAfterWaitsIff(cfg: Config, s: QueueState, x: Item, requeue: bool, after: int, now: Time)
    requires Valid(s.lanes) && x in s.lanes.processing && after > 0
    ensures Processed(cfg, s, x, Success(requeue, after), now, NOBODY) == ProcessedAsPromised(cfg, s, x, after, now)
       <==> s.lanes.shuttingDown || x in s.lanes.dirty
  {
  }

  /** Add says that what it adds is always considered fresh. An item is in the fresh lane after an Add
      exactly when it was there already, or the queue is open and the item neither dirty nor being
      processed. */
  lemma AddIsFreshIff(cfg: Config, s: QueueState, x: Item, now: Time)
    requires Valid(s.lanes)
    ensures x in AfterOp(cfg, s, AddOp(x, now)).lanes.queueFresh
       <==> x in s.lanes.queueFresh || (!s.lanes.shuttingDown && x !in s.lanes.dirty && x !in s.lanes.processing)
  {
  }

  /** In particular an item its worker requeues is in hand when Add is called, and Done, its count
      being zero, puts it last in the staled lane. */
  lemma RequeuedItemIsStaled(cfg: Config, s: QueueState, x: Item, out: Outcome, now: Time)
    requires Valid(s.lanes) && x in s.lanes.processing && !s.lanes.shuttingDown && cfg.threshold >= 0
    requires out.Success? && (out.requeue || out.requeueAfter > 0)
    ensures var t := Processed(cfg, s, x, out, now, NOBODY);
            t.lanes.queueStaled == s.lanes.queueStaled + [x] && t.lanes.queueFresh == s.lanes.queueFresh
  {
  }

  // ---------- the life of a failing item ----------

  /** One failure of an item in any queue. With a delay the item leaves the queue, and comes back, if
      nothing happens to it meanwhile, fresh while the count is within the threshold and staled
      beyond; without one it is back at once, in the other lane, which Done picks. */
  lemma RetryCycle(cfg: Config, s: QueueState, x: Item, now: Time, later: Time)
    requires Valid(s.lanes) && x in s.lanes.processing && x !in s.lanes.dirty && !s.lanes.shuttingDown
    requires Count(s.failures, x) == Count(s.limiter, x)
    ensures var n := Count(s.failures, x) + 1;
            var delay, out := if n <= cfg.threshold then cfg.fast else cfg.slow, s.lanes.processing - {x};
            var failed := Processed(cfg, s, x, Failure, now, NOBODY);
            var back := AfterAct(cfg, failed, PassedOn(x, now + delay, later));
            && Count(failed.failures, x) == Count(failed.limiter, x) == n
            && (delay > 0 ==>
                  && failed.lanes == s.lanes.(processing := out)
                  && failed.channel == s.channel + [Request(x, now + delay)]
                  && back.lanes == s.lanes.(processing := out, dirty := s.lanes.dirty + {x})
                                   .Append(x, if n <= cfg.threshold then Fresh else Staled))
            && (delay <= 0 ==>
                  && failed.channel == s.channel
                  && failed.lanes == s.lanes.(processing := out, dirty := s.lanes.dirty + {x})
                                     .Append(x, if n <= cfg.threshold then Staled else Fresh))
  {
  }

  // ---------- the loop ----------

  /** The state after the worker's turns, the items it handled, and whether it was told to stop. */
  function AfterTurns(cfg: Config, s: QueueState, freshOnly: bool, turns: seq<Turn>): (QueueState, seq<Item>, bool)
    decreases |turns|
  {
    if turns == [] then (s, [], false)
    else
      var (t, r) := AfterTurn(cfg, s, freshOnly, turns[0]);
      if r.Stopped? then (t, [], true)
      else if r.Waiting? then (t, [], false)
      else
        var (u, items, stopped) := AfterTurns(cfg, t, freshOnly, turns[1..]);
        (u, [r.item] + items, stopped)
  }

  /** A worker leaves only a queue that is shut down and has nothing left that it could take. */
  lemma {:induction false} WorkersLeaveNothingTheyCanTake(cfg: Config, s: QueueState, freshOnly: bool, turns: seq<Turn>)
    ensures var (t, _, stopped) := AfterTurns(cfg, s, freshOnly, turns);
            stopped ==> t.lanes.shuttingDown && !Ready(t.lanes, freshOnly)
    decreases |turns|
  {
    if turns != [] {
      var (t, r) := AfterTurn(cfg, s, freshOnly, turns[0]);
      if r.Handled? {
        WorkersLeaveNothingTheyCanTake(cfg, t, freshOnly, turns[1..]);
      }
    }
  }

  /** The state after the first k turns. */
  function TurnsSoFar(cfg: Config, s: QueueState, freshOnly: bool, turns: seq<Turn>, k: nat): QueueState
    requires k <= |turns|
  {
    if k == 0 then s else AfterTurn(cfg, TurnsSoFar(cfg, s, freshOnly, turns, k - 1), freshOnly, turns[k - 1]).0
  }

  lemma {:induction false} TurnsShift(cfg: Config, s: QueueState, freshOnly: bool, turns: seq<Turn>, k: nat)
    requires k < |turns|
    ensures TurnsSoFar(cfg, s, freshOnly, turns, k + 1)
         == TurnsSoFar(cfg, AfterTurn(cfg, s, freshOnly, turns[0]).0, freshOnly, turns[1..], k)
  {
    if k > 0 {
      TurnsShift(cfg, s, freshOnly, turns, k - 1);
    }
  }

  /** A worker goes on turn after turn as long as it handles items, in order; it ends in the first turn
      in which it does not, having been told to stop or being asleep. */
  lemma {:induction false} WorkGoesOn(cfg: Config, s: QueueState, freshOnly: bool, turns: seq<Turn>)
    ensures var (t, items, stopped) := AfterTurns(cfg, s, freshOnly, turns);
            && |items| <= |turns|
            && (forall k :: 0 <= k < |items| ==> HandlesAt(cfg, s, freshOnly, turns, k, items[k]))
            && var u := TurnsSoFar(cfg, s, freshOnly, turns, |items|);
               if |items| == |turns| then t == u && !stopped
               else AfterTurn(cfg, u, freshOnly, turns[|items|]) == (t, if stopped then Stopped else Waiting)
    decreases |turns|
  {
    hide AfterTurn;
    if turns != [] {
      var (next, r) := AfterTurn(cfg, s, freshOnly, turns[0]);
      if r.Handled? {
        WorkGoesOn(cfg, next, freshOnly, turns[1..]);
        var (_, items, _) := AfterTurns(cfg, next, freshOnly, turns[1..]);
        assert HandlesAt(cfg, s, freshOnly, turns, 0, r.item);
        forall k | 0 <= k < |items| ensures HandlesAt(cfg, s, freshOnly, turns, k + 1, items[k]) {
          TurnsShift(cfg, s, freshOnly, turns, k);
          assert HandlesAt(cfg, next, freshOnly, turns[1..], k, items[k]);
        }
        if |items| < |turns| {
          TurnsShift(cfg, s, freshOnly, turns, |items|);
        }
      }
    }
  }

  /** Turn k handles this item. */
  predicate HandlesAt(cfg: Config, s: QueueState, freshOnly: bool, turns: seq<Turn>, k: nat, x: Item)
    requires k < |turns|
  {
    AfterTurn(cfg, TurnsSoFar(cfg, s, freshOnly, turns, k), freshOnly, turns[k]).1 == Handled(x)
  }

  function Prepended(items: seq<Item>, r: (QueueState, seq<Item>, bool)): (t: (QueueState, seq<Item>, bool))
    ensures items == [] ==> t == r
    ensures r.1 == [] ==> t == (r.0, items, r.2)
  {
    assert [] + r.1 == r.1 && items + [] == items;
    (r.0, items + r.1, r.2)
  }

  lemma PrependedTwice(cfg: Config, s: QueueState, freshOnly: bool, turns: seq<Turn>, items: seq<Item>)
    requires turns != []
    ensures Prepended(items, AfterTurns(cfg, s, freshOnly, turns)) ==
            var (t, r) := AfterTurn(cfg, s, freshOnly, turns[0]);
            match r
            case Stopped => (t, items, true)
            case Waiting => (t, items, false)
            case Handled(x) => Prepended(items + [x], AfterTurns(cfg, t, freshOnly, turns[1..]))
  {
    var (t, r) := AfterTurn(cfg, s, freshOnly, turns[0]);
    if r.Handled? {
      var rest := AfterTurns(cfg, t, freshOnly, turns[1..]).1;
      assert items + ([r.item] + rest) == items + [r.item] + rest;
    }
  }

  /** One goroutine of Run: it repeats processItemFromQueue until that returns false. */
  method Work(q: PlayboyQueue, freshOnly: bool, turns: seq<Turn>) returns (items: seq<Item>, stopped: bool)
    requires q.Valid()
    modifies q, q.rateLimiter, q.metrics
    ensures q.Valid() && (q.State(), items, stopped) == AfterTurns(q.Cfg(), old(q.State()), freshOnly, turns)
  {
    hide PlayboyQueue.Valid, AfterTurn;
    items, stopped := [], false;
    var i := 0;
    assert turns[0..] == turns;
    while i < |turns|
      invariant 0 <= i <= |turns| && q.Valid()
      invariant AfterTurns(q.Cfg(), old(q.State()), freshOnly, turns)
             == Prepended(items, AfterTurns(q.Cfg(), q.State(), freshOnly, turns[i..]))
    {
      PrependedTwice(q.Cfg(), q.State(), freshOnly, turns[i..], items);
      var r := ProcessItemFromQueue(q, freshOnly, turns[i]);
      match r {
        case Stopped =>
          stopped := true;
          return;
        case Waiting => return;
        case Handled(item) => items := items + [item];
      }
      i := i + 1;
    }
  }
}
