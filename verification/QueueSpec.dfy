/** What each public operation of the queue does to the whole of its state, when no other
    goroutine runs in between. */
module QueueSpec {
  import opened Lanes
  import M = Monitor
  import opened Protocol

  datatype QueueState = QueueState(
    lanes: Queue,
    failures: map<Item, nat>,
    limiter: map<Item, nat>,
    channel: seq<Request>)

  /** One call by some goroutine, with the clock reading it takes. A Get that finds nothing parks
      its caller, which is no change of state; parked callers are the monitor's business. */
  datatype Op =
    | AddOp(item: Item, now: Time)
    | AddAfterOp(item: Item, delay: int, now: Time)
    | AddRateLimitedOp(item: Item, now: Time)
    | ForgetOp(item: Item)
    | GetOp(freshOnly: bool, now: Time)
    | DoneOp(item: Item, now: Time)
    | ShutDownOp

  function Added(s: QueueState, x: Item, lane: Lane): QueueState {
    s.(lanes := Lanes.Add(s.lanes, x, lane))
  }

  /** The lane isFresh stands for right now. */
  function LaneOf(cfg: Config, s: QueueState, x: Item): Lane {
    LaneFor(cfg, Count(s.failures, x))
  }

  function AddedAfter(cfg: Config, s: QueueState, x: Item, delay: int, now: Time): QueueState {
    if s.lanes.shuttingDown then s
    else if delay <= 0 then Added(s, x, LaneOf(cfg, s, x))
    else s.(channel := s.channel + [Request(x, now + delay)])
  }

  function Failed(s: QueueState, x: Item): QueueState {
    s.(failures := s.failures[x := Count(s.failures, x) + 1],
       limiter := s.limiter[x := Count(s.limiter, x) + 1])
  }

  function AddedRateLimited(cfg: Config, s: QueueState, x: Item, now: Time): QueueState {
    var t := Failed(s, x);
    AddedAfter(cfg, t, x, DelayFor(cfg, Count(t.limiter, x)), now)
  }

  function Forgotten(s: QueueState, x: Item): QueueState {
    s.(failures := s.failures - {x}, limiter := s.limiter - {x})
  }

  function Got(s: QueueState, freshOnly: bool): QueueState {
    if Ready(s.lanes, freshOnly) then s.(lanes := Take(s.lanes, freshOnly)) else s
  }

  function Finished(cfg: Config, s: QueueState, x: Item): QueueState {
    s.(lanes := Lanes.Finish(s.lanes, x, DoneLane(cfg, Count(s.limiter, x))))
  }

  function AfterOp(cfg: Config, s: QueueState, op: Op): QueueState {
    match op
    case AddOp(x, _) => Added(s, x, Fresh)
    case AddAfterOp(x, delay, now) => AddedAfter(cfg, s, x, delay, now)
    case AddRateLimitedOp(x, now) => AddedRateLimited(cfg, s, x, now)
    case ForgetOp(x) => Forgotten(s, x)
    case GetOp(freshOnly, _) => Got(s, freshOnly)
    case DoneOp(x, _) => Finished(cfg, s, x)
    case ShutDownOp => s.(lanes := Lanes.ShutDown(s.lanes))
  }

  /** The one demand on callers: Done is for an item somebody got and has not finished. */
  predicate Legal(s: QueueState, op: Op) {
    op.DoneOp? ==> op.item in s.lanes.processing
  }

  /** What a goroutine holding `mine` can rely on: nobody else calls Done for those. */
  predicate MayDo(s: QueueState, op: Op, mine: set<Item>) {
    Legal(s, op) && (op.DoneOp? ==> op.item !in mine)
  }

  /** The others do all this, calls of Done against the rule left out. */
  function AfterOthers(cfg: Config, s: QueueState, ops: seq<Op>, mine: set<Item>): QueueState
    decreases |ops|
  {
    if ops == [] then s
    else AfterOthers(cfg, if MayDo(s, ops[0], mine) then AfterOp(cfg, s, ops[0]) else s, ops[1..], mine)
  }

  /** What is held stays held, whatever the others do, and a shut down queue stays shut down. */
  lemma {:induction false} OthersLeaveMine(cfg: Config, s: QueueState, ops: seq<Op>, mine: set<Item>)
    requires mine <= s.lanes.processing
    ensures mine <= AfterOthers(cfg, s, ops, mine).lanes.processing
    ensures s.lanes.shuttingDown ==> AfterOthers(cfg, s, ops, mine).lanes.shuttingDown
    decreases |ops|
  {
    if ops != [] {
      OthersLeaveMine(cfg, if MayDo(s, ops[0], mine) then AfterOp(cfg, s, ops[0]) else s, ops[1..], mine);
    }
  }

  lemma OpKeepsValid(cfg: Config, s: QueueState, op: Op)
    requires Valid(s.lanes) && Legal(s, op)
    ensures Valid(AfterOp(cfg, s, op).lanes)
  {
    match op {
      case GetOp(freshOnly, _) =>
        if Ready(s.lanes, freshOnly) {
          TakeKeepsValid(s.lanes, freshOnly);
        }
      case DoneOp(x, _) => FinishKeepsValid(s.lanes, x, DoneLane(cfg, Count(s.limiter, x)));
      case AddOp(x, _) => AddKeepsValid(s.lanes, x, Fresh);
      case AddAfterOp(x, _, _) => AddKeepsValid(s.lanes, x, LaneOf(cfg, s, x));
      case AddRateLimitedOp(x, _) => AddKeepsValid(s.lanes, x, LaneOf(cfg, Failed(s, x), x));
      case _ =>
    }
  }

  // ---------- blocking calls ----------

  /** Others act one after the other: what one more of them does comes last, and is left out only if
      it is a Done for an item that is not in process, or in the hands of the one who waits. */
  lemma {:induction false} OthersInOrder(cfg: Config, s: QueueState, ops: seq<Op>, op: Op, mine: set<Item>)
    ensures AfterOthers(cfg, s, [], mine) == s
    ensures var t := AfterOthers(cfg, s, ops, mine);
            AfterOthers(cfg, s, ops + [op], mine)
            == if op.DoneOp? && (op.item !in t.lanes.processing || op.item in mine) then t else AfterOp(cfg, t, op)
    decreases |ops|
  {
    if ops == [] {
      assert ops + [op] == [op];
      assert [op][1..] == [];
    } else {
      assert (ops + [op])[0] == ops[0] && (ops + [op])[1..] == ops[1..] + [op];
      OthersInOrder(cfg, if MayDo(s, ops[0], mine) then AfterOp(cfg, s, ops[0]) else s, ops[1..], op, mine);
    }
  }

  /** How Get ends, given what others do during each of its waits: it may still be asleep when
      they have done all that. */
  datatype GetResult = GotItem(item: Item) | GotShutDown | Asleep

  predicate MustWait(s: QueueState, freshOnly: bool) {
    !Ready(s.lanes, freshOnly) && !s.lanes.shuttingDown
  }

  /** The state in which Get leaves its waiting loop. */
  function AfterWaits(cfg: Config, s: QueueState, freshOnly: bool, rounds: seq<seq<Op>>): QueueState
    decreases |rounds|
  {
    if !MustWait(s, freshOnly) || rounds == [] then s
    else AfterWaits(cfg, AfterOthers(cfg, s, rounds[0], {}), freshOnly, rounds[1..])
  }

  /** Get's result and the state it leaves. */
  function AfterGet(cfg: Config, s: QueueState, freshOnly: bool, rounds: seq<seq<Op>>): (QueueState, GetResult) {
    var t := AfterWaits(cfg, s, freshOnly, rounds);
    if Ready(t.lanes, freshOnly) then (Got(t, freshOnly), GotItem(Head(t.lanes, freshOnly)))
    else if t.lanes.shuttingDown then (t, GotShutDown)
    else (t, Asleep)
  }

  lemma {:induction false} OthersKeepValid(cfg: Config, s: QueueState, ops: seq<Op>, mine: set<Item>)
    requires Valid(s.lanes)
    ensures Valid(AfterOthers(cfg, s, ops, mine).lanes)
    decreases |ops|
  {
    if ops != [] {
      if MayDo(s, ops[0], mine) {
        OpKeepsValid(cfg, s, ops[0]);
      }
      OthersKeepValid(cfg, if MayDo(s, ops[0], mine) then AfterOp(cfg, s, ops[0]) else s, ops[1..], mine);
    }
  }

  /** Whatever others do while Get waits: an item it returns is in hand and no longer dirty or
      queued; it reports shutdown only from a queue that is shut down with nothing to take; and
      nobody sleeps on a queue that was shut down before the call. */
  lemma {:induction false} GetMeans(cfg: Config, s: QueueState, freshOnly: bool, rounds: seq<seq<Op>>)
    requires Valid(s.lanes)
    ensures var (t, r) := AfterGet(cfg, s, freshOnly, rounds);
            && Valid(t.lanes)
            && (r.GotItem? ==> r.item in t.lanes.processing && r.item !in t.lanes.dirty && !t.lanes.IsQueued(r.item))
            && (r.GotShutDown? ==>
                  t.lanes.shuttingDown && t.lanes.queueFresh == [] && (freshOnly || t.lanes.queueStaled == []))
            && (r.Asleep? ==> MustWait(t, freshOnly) && !s.lanes.shuttingDown)
    decreases |rounds|
  {
    if MustWait(s, freshOnly) && rounds != [] {
      OthersKeepValid(cfg, s, rounds[0], {});
      GetMeans(cfg, AfterOthers(cfg, s, rounds[0], {}), freshOnly, rounds[1..]);
    } else if Ready(s.lanes, freshOnly) {
      TakeKeepsValid(s.lanes, freshOnly);
    }
  }

  /** The state after what the others do in the first k waits. */
  function Meanwhile(cfg: Config, s: QueueState, rounds: seq<seq<Op>>, k: nat): QueueState
    requires k <= |rounds|
  {
    if k == 0 then s else AfterOthers(cfg, Meanwhile(cfg, s, rounds, k - 1), rounds[k - 1], {})
  }

  lemma {:induction false} MeanwhileShifts(cfg: Config, s: QueueState, rounds: seq<seq<Op>>, k: nat)
    requires k < |rounds|
    ensures Meanwhile(cfg, s, rounds, k + 1) == Meanwhile(cfg, AfterOthers(cfg, s, rounds[0], {}), rounds[1..], k)
  {
    if k > 0 {
      MeanwhileShifts(cfg, s, rounds, k - 1);
    }
  }

  /** Get tests again after every wake-up. It is still asleep exactly if after each wait there is
      nothing to take and no shutdown; otherwise it ends after the first wait of which that is not
      so, with the first item of the fresh lane, else (unless freshOnly) of the staled lane, else
      with the shutdown. */
  lemma {:induction false} GetTestsAgain(cfg: Config, s: QueueState, freshOnly: bool, rounds: seq<seq<Op>>)
    returns (k: nat)
    ensures k <= |rounds|
    ensures forall i :: 0 <= i < k ==> MustWait(Meanwhile(cfg, s, rounds, i), freshOnly)
    ensures var (t, r) := AfterGet(cfg, s, freshOnly, rounds);
            var u := Meanwhile(cfg, s, rounds, k);
            && (r.Asleep? <==> MustWait(u, freshOnly)) && (r.Asleep? ==> k == |rounds| && t == u)
            && (!r.Asleep? ==> Answers(u, freshOnly, t, r))
    decreases |rounds|
  {
    if !MustWait(s, freshOnly) || rounds == [] {
      k := 0;
    } else {
      var next := AfterOthers(cfg, s, rounds[0], {});
      k := GetTestsAgain(cfg, next, freshOnly, rounds[1..]);
      MeanwhileShifts(cfg, s, rounds, k);
      forall i | 0 <= i < k + 1 ensures MustWait(Meanwhile(cfg, s, rounds, i), freshOnly) {
        if i > 0 {
          MeanwhileShifts(cfg, s, rounds, i - 1);
        }
      }
      k := k + 1;
    }
  }

  /** What Get makes of a state in which it need not wait. */
  predicate Answers(u: QueueState, freshOnly: bool, t: QueueState, r: GetResult) {
    var q := u.lanes;
    if q.queueFresh != [] then
      var x := q.queueFresh[0];
      && r == GotItem(x)
      && t == u.(lanes := Queue(q.queueFresh[1..], q.queueStaled, q.dirty - {x}, q.processing + {x}, q.shuttingDown))
    else if !freshOnly && q.queueStaled != [] then
      var x := q.queueStaled[0];
      && r == GotItem(x)
      && t == u.(lanes := Queue([], q.queueStaled[1..], q.dirty - {x}, q.processing + {x}, q.shuttingDown))
    else q.shuttingDown && r == GotShutDown && t == u
  }

  /** Does this operation signal or broadcast? */
  predicate OpSignals(cfg: Config, s: QueueState, op: Op) {
    match op
    case AddOp(x, _) => AddSignals(s.lanes, x)
    case AddAfterOp(x, delay, _) => delay <= 0 && AddSignals(s.lanes, x)
    case AddRateLimitedOp(x, _) => DelayFor(cfg, Count(s.limiter, x) + 1) <= 0 && AddSignals(s.lanes, x)
    case DoneOp(x, _) => x in s.lanes.dirty
    case ShutDownOp => !s.lanes.shuttingDown
    case _ => false
  }

  /** Signal is called exactly when an item enters a lane, and Broadcast by the first ShutDown. */
  lemma SignalsIffItQueues(cfg: Config, s: QueueState, op: Op)
    ensures !op.ShutDownOp? ==> (OpSignals(cfg, s, op) <==> AfterOp(cfg, s, op).lanes.Len() > s.lanes.Len())
    ensures op.ShutDownOp? ==>
      (OpSignals(cfg, s, op) <==> AfterOp(cfg, s, op).lanes.shuttingDown && !s.lanes.shuttingDown)
  {
  }

  /** Does anything the others do wake a sleeper? */
  predicate OthersSignal(cfg: Config, s: QueueState, ops: seq<Op>, mine: set<Item>)
    decreases |ops|
  {
    && ops != []
    && (if MayDo(s, ops[0], mine) then
          OpSignals(cfg, s, ops[0]) || OthersSignal(cfg, AfterOp(cfg, s, ops[0]), ops[1..], mine)
        else OthersSignal(cfg, s, ops[1..], mine))
  }

  /** Somebody wakes a sleeper exactly if one of the operations signals in the state it meets. */
  lemma {:induction false} OthersSignalIff(cfg: Config, s: QueueState, ops: seq<Op>, mine: set<Item>)
    ensures OthersSignal(cfg, s, ops, mine)
       <==> exists i :: 0 <= i < |ops| && SignalsAt(cfg, s, ops, mine, i)
    decreases |ops|
  {
    if ops != [] {
      var next := if MayDo(s, ops[0], mine) then AfterOp(cfg, s, ops[0]) else s;
      OthersSignalIff(cfg, next, ops[1..], mine);
      forall i | 0 < i < |ops|
        ensures SignalsAt(cfg, s, ops, mine, i) <==> SignalsAt(cfg, next, ops[1..], mine, i - 1)
      {
        assert ops[..i][0] == ops[0] && ops[..i][1..] == ops[1..][..i - 1];
      }
      assert ops[..0] == [];
      assert SignalsAt(cfg, s, ops, mine, 0) <==> MayDo(s, ops[0], mine) && OpSignals(cfg, s, ops[0]);
      if j :| 0 <= j < |ops| - 1 && SignalsAt(cfg, next, ops[1..], mine, j) {
        assert SignalsAt(cfg, s, ops, mine, j + 1);
      }
    }
  }

  predicate SignalsAt(cfg: Config, s: QueueState, ops: seq<Op>, mine: set<Item>, i: nat)
    requires i < |ops|
  {
    var t := AfterOthers(cfg, s, ops[..i], mine);
    MayDo(t, ops[i], mine) && OpSignals(cfg, t, ops[i])
  }

  /** While nobody signals, nothing arrives that a sleeping Get could take. */
  lemma {:induction false} UnsignalledMissNothing(cfg: Config, s: QueueState, freshOnly: bool, ops: seq<Op>)
    requires MustWait(s, freshOnly) && !OthersSignal(cfg, s, ops, {})
    ensures MustWait(AfterOthers(cfg, s, ops, {}), freshOnly)
    decreases |ops|
  {
    if ops != [] {
      UnsignalledMissNothing(cfg, if MayDo(s, ops[0], {}) then AfterOp(cfg, s, ops[0]) else s, freshOnly, ops[1..]);
    }
  }

  ghost predicate WakesSomebody(t: M.State, u: M.State) {
    exists b :: M.Is(t, b, M.Parked) && M.Is(u, b, M.Woken)
  }

  /** Every operation of the queue is a step of the monitor: the event below, or no step where
      only the counters or the channel change. Get returns an item, returns shutdown, or parks its
      caller; and a sleeper is woken exactly by the operations that signal. */
  lemma OpIsMonitorStep(cfg: Config, s: QueueState, op: Op, t: M.State, c: M.Id) returns (e: Option<M.Event>)
    requires t.q == s.lanes
    requires op.GetOp? ==> M.Is(t, c, M.Idle) && M.HasRole(t, c, if op.freshOnly then M.FreshGetter else M.Getter)
    requires op.DoneOp? ==> M.Holds(t, c, op.item)
    ensures e.None? ==> AfterOp(cfg, s, op).lanes == t.q
    ensures e.Some? ==>
              M.Enabled(cfg.policy, t, e.value) && M.Apply(cfg.policy, t, e.value).q == AfterOp(cfg, s, op).lanes
    ensures op.GetOp? || op.DoneOp? || op.ShutDownOp? ==> e.Some?
    ensures op.AddOp? ==> e.Some? && e.value.Add? && e.value.item == op.item && IsOutsider(e.value)
    ensures op.GetOp? ==>
              M.Is(M.Apply(cfg.policy, t, e.value), c,
                   if Ready(s.lanes, op.freshOnly) then M.Holding(Head(s.lanes, op.freshOnly))
                   else if s.lanes.shuttingDown then M.Exited else M.Parked)
    ensures op.DoneOp? ==> M.Is(M.Apply(cfg.policy, t, e.value), c, M.Idle)
    ensures cfg.policy == M.AsWritten && OpSignals(cfg, s, op) ==> e.Some?
    ensures cfg.policy == M.AsWritten && M.AnyParked(t.pcs) ==>
              (OpSignals(cfg, s, op) <==> e.Some? && WakesSomebody(t, M.Apply(cfg.policy, t, e.value)))
  {
    var wake := if w :| w in t.pcs && t.pcs[w] == M.Parked then Some(w) else None;
    assert M.MayWake(t.pcs, wake);
    match op {
      case AddOp(x, _) => e := Some(M.Add(x, Fresh, wake));
      case AddAfterOp(x, delay, _) =>
        e := if delay <= 0 then Some(M.Add(x, LaneOf(cfg, s, x), wake)) else None;
      case AddRateLimitedOp(x, _) =>
        var f := Failed(s, x);
        e := if DelayFor(cfg, Count(f.limiter, x)) <= 0 then Some(M.Add(x, LaneOf(cfg, f, x), wake)) else None;
      case ForgetOp(_) => e := None;
      case GetOp(freshOnly, _) => e := Some(M.Get(c));
      case DoneOp(x, _) => e := Some(M.Done(c, DoneLane(cfg, Count(s.limiter, x)), wake));
      case ShutDownOp => e := Some(M.ShutDown);
    }
    if cfg.policy == M.AsWritten && wake.Some? && OpSignals(cfg, s, op) {
      assert M.Is(t, wake.value, M.Parked) && M.Is(M.Apply(cfg.policy, t, e.value), wake.value, M.Woken);
    }
  }

  /** The state in which ShutDownWithDrain leaves its loop, and whether it does leave it: a wait in
      which nobody signals does not end. */
  function DrainWaits(cfg: Config, s: QueueState, rounds: seq<seq<Op>>): (QueueState, bool)
    decreases |rounds|
  {
    if s.lanes.processing == {} then (s, true)
    else if rounds == [] then (s, false)
    else
      var t := AfterOthers(cfg, s, rounds[0], {});
      if OthersSignal(cfg, s, rounds[0], {}) then DrainWaits(cfg, t, rounds[1..]) else (t, false)
  }

  /** No item in process is dirty. */
  ghost predicate HeldItemsAreClean(s: QueueState) {
    s.lanes.processing !! s.lanes.dirty
  }

  lemma {:induction false} CleanHoldersSignalNobody(cfg: Config, s: QueueState, ops: seq<Op>)
    requires s.lanes.shuttingDown && HeldItemsAreClean(s)
    ensures !OthersSignal(cfg, s, ops, {})
    decreases |ops|
  {
    if ops != [] {
      CleanHoldersSignalNobody(cfg, if MayDo(s, ops[0], {}) then AfterOp(cfg, s, ops[0]) else s, ops[1..]);
    }
  }

  /** ShutDownWithDrain returns only from a shut down queue with nothing in process. Called while
      items are in process of which none is dirty, it never returns, whatever the others do. */
  lemma {:induction false} DrainMeans(cfg: Config, s: QueueState, rounds: seq<seq<Op>>)
    requires s.lanes.shuttingDown
    ensures var (t, returned) := DrainWaits(cfg, s, rounds);
            && (returned ==> t.lanes.shuttingDown && t.lanes.processing == {})
            && (s.lanes.processing != {} && HeldItemsAreClean(s) ==> !returned)
    decreases |rounds|
  {
    if s.lanes.processing != {} && rounds != [] {
      var t := AfterOthers(cfg, s, rounds[0], {});
      OthersLeaveMine(cfg, s, rounds[0], {});
      if HeldItemsAreClean(s) {
        CleanHoldersSignalNobody(cfg, s, rounds[0]);
      }
      DrainMeans(cfg, t, rounds[1..]);
    }
  }

  /** Wait i begins with something in process, and somebody signals in it. */
  predicate WaitIsEnded(cfg: Config, s: QueueState, rounds: seq<seq<Op>>, i: nat)
    requires i < |rounds|
  {
    var u := Meanwhile(cfg, s, rounds, i);
    u.lanes.processing != {} && OthersSignal(cfg, u, rounds[i], {})
  }

  /** ShutDownWithDrain tests again after every wait in which somebody signals, and after no other. It
      returns exactly if after some of its waits nothing is in process, each wait before having been
      ended by a signal. */
  lemma {:induction false} DrainTestsAgain(cfg: Config, s: QueueState, rounds: seq<seq<Op>>) returns (k: nat)
    ensures k <= |rounds|
    ensures forall i :: 0 <= i < k ==> WaitIsEnded(cfg, s, rounds, i)
    ensures var (t, returned) := DrainWaits(cfg, s, rounds);
            var u := Meanwhile(cfg, s, rounds, k);
            && (returned <==> u.lanes.processing == {})
            && (returned ==> t == u)
            && (!returned && k == |rounds| ==> t == u)
            && (!returned && k < |rounds| ==>
                  !OthersSignal(cfg, u, rounds[k], {}) && t == Meanwhile(cfg, s, rounds, k + 1))
    decreases |rounds|
  {
    hide AfterOthers, OthersSignal;
    if s.lanes.processing == {} || rounds == [] {
      k := 0;
    } else if !OthersSignal(cfg, s, rounds[0], {}) {
      k := 0;
      assert Meanwhile(cfg, s, rounds, 1) == AfterOthers(cfg, Meanwhile(cfg, s, rounds, 0), rounds[0], {});
    } else {
      var next := AfterOthers(cfg, s, rounds[0], {});
      k := DrainTestsAgain(cfg, next, rounds[1..]);
      forall i | 0 < i <= |rounds| ensures Meanwhile(cfg, s, rounds, i) == Meanwhile(cfg, next, rounds[1..], i - 1) {
        MeanwhileShifts(cfg, s, rounds, i - 1);
      }
      forall i | 0 < i < k + 1 ensures WaitIsEnded(cfg, s, rounds, i) {
        assert WaitIsEnded(cfg, next, rounds[1..], i - 1);
      }
      k := k + 1;
    }
  }
}
