/** The workers and the waiting loop on top of the monitor. Between its Get and its Done a worker
    counts a failure, asks the rate limiter for a delay and re-adds the item, or forgets the item;
    the waiting loop takes delayed requests from the channel and adds their items when they are
    due. Counters, queue and channel are guarded separately, so each access is a step of its own. */
module Protocol {
  import opened Lanes
  import opened DelayedItems
  import M = Monitor

  type Id = M.Id

  type Roles = map<Id, M.Role>

  /** The limiter is built with the same threshold as the queue. */
  datatype Config = Config(threshold: int, fast: int, slow: int, policy: M.Policy)

  /** What reconcile returns. */
  datatype Outcome = Failure | Success(requeue: bool, requeueAfter: int)

  datatype Request = Request(item: Item, readyAt: Time)

  /** Where a worker is inside processItemFromQueue. `again` says that the call of AddAfter is the
      one for RequeueAfter, which Add follows. */
  datatype Phase =
    | Outside
    | Reconciling
    | Counted                                   // AddRateLimited has raised q.failures
    | Delaying(delay: int, again: bool)         // AddAfter is called
    | Admitted(delay: int, again: bool)         // ... and found the queue not shutting down
    | Adding(lane: Lane, again: bool)           // AddAfter, without delay: about to call q.add
    | Readding                                  // Add is called
    | Forgetting(out: Outcome)                  // inside Forget, holding failuresLock
    | Finishing                                 // about to call Done

  /** Where the waiting loop goes on once an item is added. */
  datatype Back = ToDrain(reading: Time) | ToReceive

  datatype LoopPc =
    | AtTop
    | InDrain(reading: Time)                    // adding ready entries
    | InSelect
    | InReceive                                 // emptying the channel
    | ToPass(item: Item, readyAt: Time, back: Back)                // about to call isFresh
    | ToPlace(item: Item, readyAt: Time, lane: Lane, back: Back)   // about to call q.add
    | Ended

  datatype Sys = Sys(
    m: M.State,
    phases: map<Id, Phase>,
    failures: map<Item, nat>,
    limiter: map<Item, nat>,
    channel: seq<Request>,
    waiting: map<Item, Time>,
    loop: LoopPc,
    now: Time)

  datatype Event =
    | Env(e: M.Event)                           // other goroutines, at the monitor
    | Tick(elapsed: nat)
    | Get(c: Id)
    | Fail(c: Id)
    | When(c: Id)
    | CheckShutDown(c: Id)
    | ReadFresh(c: Id)
    | Send(c: Id)
    | Drop(c: Id)
    | AddNow(c: Id, wake: Option<Id>)
    | Forget(c: Id, out: Outcome)
    | ForgetLimiter(c: Id)
    | Finish(c: Id, wake: Option<Id>)
    | LoopCheck
    | LoopPop(item: Item)
    | LoopSleep
    | LoopWake                                  // the heartbeat or the timer
    | LoopStop
    | LoopTake
    | LoopEmpty
    | LoopRead
    | LoopAdd(wake: Option<Id>)

  function Count(counts: map<Item, nat>, x: Item): nat {
    if x in counts then counts[x] else 0
  }

  /** isFresh, and the lane it stands for. */
  function LaneFor(cfg: Config, count: nat): Lane {
    if count <= cfg.threshold then Fresh else Staled
  }

  /** The lane Done picks for an item that is dirty again. */
  function DoneLane(cfg: Config, count: nat): Lane {
    if count > cfg.threshold then Fresh else Staled
  }

  /** What the limiter's When returns once it has counted the call. */
  function DelayFor(cfg: Config, count: nat): int {
    if count <= cfg.threshold then cfg.fast else cfg.slow
  }

  function AfterAddAfter(again: bool): Phase {
    if again then Readding else Finishing
  }

  function AfterForget(out: Outcome): Phase {
    if !out.Success? then Finishing
    else if out.requeueAfter > 0 then Delaying(out.requeueAfter, true)
    else if out.requeue then Readding
    else Finishing
  }

  predicate Works(s: Sys, c: Id) {
    c in s.m.pcs && c in s.phases && s.m.pcs[c].Holding?
  }

  function ItemOf(s: Sys, c: Id): Item
    requires Works(s, c)
  {
    s.m.pcs[c].item
  }

  ghost predicate LockIsFree(s: Sys) {
    forall c :: c in s.phases ==> !s.phases[c].Forgetting?
  }

  predicate IsLoopStep(e: Event) {
    e.LoopCheck? || e.LoopPop? || e.LoopSleep? || e.LoopWake? || e.LoopStop? || e.LoopTake? || e.LoopEmpty?
    || e.LoopRead? || e.LoopAdd?
  }

  /** Anybody may call Add, ShutDown or ShutDownWithDrain. */
  ghost predicate IsOutsider(e: M.Event) {
    !e.Get? && !e.Done? && (e.Add? ==> e.lane == Fresh)
  }

  ghost predicate IsEarliest(waiting: map<Item, Time>, x: Item) {
    x in waiting && forall y :: y in waiting ==> waiting[x] <= waiting[y]
  }

  ghost predicate Enabled(cfg: Config, s: Sys, e: Event) {
    match e
    case Env(f) => IsOutsider(f) && M.Enabled(cfg.policy, s.m, f)
    case Tick(_) => true
    case Get(c) => M.Enabled(cfg.policy, s.m, M.Get(c))
    case Fail(c) => Works(s, c) && s.phases[c] == Reconciling && LockIsFree(s)
    case When(c) => Works(s, c) && s.phases[c] == Counted
    case CheckShutDown(c) => Works(s, c) && s.phases[c].Delaying?
    case ReadFresh(c) => Works(s, c) && s.phases[c].Admitted? && s.phases[c].delay <= 0 && LockIsFree(s)
    case Send(c) => Works(s, c) && s.phases[c].Admitted? && s.phases[c].delay > 0
    case Drop(c) => Works(s, c) && s.phases[c].Admitted? && s.phases[c].delay > 0 && s.m.q.shuttingDown
    case AddNow(c, wake) =>
      && Works(s, c) && (s.phases[c].Adding? || s.phases[c].Readding?)
      && M.Enabled(cfg.policy, s.m, AddEvent(s, c, wake))
    case Forget(c, out) => Works(s, c) && s.phases[c] == Reconciling && out.Success? && LockIsFree(s)
    case ForgetLimiter(c) => Works(s, c) && s.phases[c].Forgetting?
    case Finish(c, wake) =>
      && Works(s, c) && s.phases[c] == Finishing
      && M.Enabled(cfg.policy, s.m, FinishEvent(cfg, s, c, wake))
    case LoopCheck => s.loop == AtTop
    case LoopPop(x) => s.loop.InDrain? && IsEarliest(s.waiting, x) && s.waiting[x] <= s.loop.reading
    case LoopSleep => s.loop.InDrain? && forall x :: x in s.waiting ==> s.waiting[x] > s.loop.reading
    case LoopWake => s.loop == InSelect
    case LoopStop => s.loop == InSelect && s.m.q.shuttingDown
    case LoopTake => (s.loop == InSelect || s.loop == InReceive) && s.channel != []
    case LoopEmpty => s.loop == InReceive && s.channel == []
    case LoopRead => s.loop.ToPass? && LockIsFree(s)
    case LoopAdd(wake) => s.loop.ToPlace? && M.Enabled(cfg.policy, s.m, M.Add(s.loop.item, s.loop.lane, wake))
  }

  function AfterAdd(back: Back): LoopPc {
    match back
    case ToDrain(reading) => InDrain(reading)
    case ToReceive => InReceive
  }

  /** The loop receives the first request of the channel: it is delayed if due later than now. */
  function AfterTake(s: Sys): Sys
    requires s.channel != []
  {
    var r := s.channel[0];
    var t := s.(channel := s.channel[1..]);
    if r.readyAt > s.now then t.(waiting := Earliest(s.waiting, r.item, r.readyAt), loop := InReceive)
    else t.(loop := ToPass(r.item, r.readyAt, ToReceive))
  }

  /** The lane AddAfter was told by isFresh; Add always says fresh. */
  function AddEvent(s: Sys, c: Id, wake: Option<Id>): M.Event
    requires Works(s, c)
  {
    M.Add(ItemOf(s, c), if s.phases[c].Adding? then s.phases[c].lane else Fresh, wake)
  }

  function FinishEvent(cfg: Config, s: Sys, c: Id, wake: Option<Id>): M.Event
    requires Works(s, c)
  {
    M.Done(c, DoneLane(cfg, Count(s.limiter, ItemOf(s, c))), wake)
  }

  function Apply(cfg: Config, s: Sys, e: Event): Sys
    requires Enabled(cfg, s, e)
  {
    match e
    case Env(f) => s.(m := M.Apply(cfg.policy, s.m, f))
    case Tick(elapsed) => s.(now := s.now + elapsed)
    case Get(c) =>
      s.(m := M.Apply(cfg.policy, s.m, M.Get(c)),
         phases := if M.CanTake(s.m, c) then s.phases[c := Reconciling] else s.phases)
    case Fail(c) =>
      var x := ItemOf(s, c);
      s.(failures := s.failures[x := Count(s.failures, x) + 1], phases := s.phases[c := Counted])
    case When(c) =>
      var x := ItemOf(s, c);
      var n := Count(s.limiter, x) + 1;
      s.(limiter := s.limiter[x := n], phases := s.phases[c := Delaying(DelayFor(cfg, n), false)])
    case CheckShutDown(c) =>
      var ph := s.phases[c];
      s.(phases := s.phases[c := if s.m.q.shuttingDown then AfterAddAfter(ph.again)
                                 else Admitted(ph.delay, ph.again)])
    case ReadFresh(c) =>
      s.(phases := s.phases[c := Adding(LaneFor(cfg, Count(s.failures, ItemOf(s, c))), s.phases[c].again)])
    case Send(c) =>
      s.(channel := s.channel + [Request(ItemOf(s, c), s.now + s.phases[c].delay)],
         phases := s.phases[c := AfterAddAfter(s.phases[c].again)])
    case Drop(c) => s.(phases := s.phases[c := AfterAddAfter(s.phases[c].again)])
    case AddNow(c, wake) =>
      s.(m := M.Apply(cfg.policy, s.m, AddEvent(s, c, wake)),
         phases := s.phases[c := AfterAddAfter(s.phases[c].Adding? && s.phases[c].again)])
    case Forget(c, out) =>
      s.(failures := s.failures - {ItemOf(s, c)}, phases := s.phases[c := Forgetting(out)])
    case ForgetLimiter(c) =>
      s.(limiter := s.limiter - {ItemOf(s, c)}, phases := s.phases[c := AfterForget(s.phases[c].out)])
    case Finish(c, wake) =>
      s.(m := M.Apply(cfg.policy, s.m, FinishEvent(cfg, s, c, wake)), phases := s.phases[c := Outside])
    case LoopCheck => s.(loop := if s.m.q.shuttingDown then Ended else InDrain(s.now))
    case LoopPop(x) => s.(waiting := s.waiting - {x}, loop := ToPass(x, s.waiting[x], ToDrain(s.loop.reading)))
    case LoopSleep => s.(loop := InSelect)
    case LoopWake => s.(loop := AtTop)
    case LoopStop => s.(loop := Ended)
    case LoopTake => AfterTake(s)
    case LoopEmpty => s.(loop := AtTop)
    case LoopRead =>
      s.(loop := ToPlace(s.loop.item, s.loop.readyAt, LaneFor(cfg, Count(s.failures, s.loop.item)), s.loop.back))
    case LoopAdd(wake) =>
      s.(m := M.Apply(cfg.policy, s.m, M.Add(s.loop.item, s.loop.lane, wake)), loop := AfterAdd(s.loop.back))
  }

  function Init(roles: Roles): Sys {
    Sys(M.Init(roles), map c | c in roles :: Outside, map[], map[], [], map[], AtTop, 0)
  }

  ghost predicate IsRun(cfg: Config, s: Sys, es: seq<Event>)
    decreases |es|
  {
    es == [] || (Enabled(cfg, s, es[0]) && IsRun(cfg, Apply(cfg, s, es[0]), es[1..]))
  }

  ghost function Final(cfg: Config, s: Sys, es: seq<Event>): Sys
    requires IsRun(cfg, s, es)
    decreases |es|
  {
    if es == [] then s else Final(cfg, Apply(cfg, s, es[0]), es[1..])
  }

  /** The state before step k of a run. */
  ghost function At(cfg: Config, s: Sys, es: seq<Event>, k: nat): Sys
    requires IsRun(cfg, s, es) && k <= |es|
    decreases |es|
  {
    if k == 0 then s else At(cfg, Apply(cfg, s, es[0]), es[1..], k - 1)
  }

  lemma {:induction false} AtStep(cfg: Config, s: Sys, es: seq<Event>, k: nat)
    requires IsRun(cfg, s, es) && k < |es|
    ensures Enabled(cfg, At(cfg, s, es, k), es[k])
    ensures At(cfg, s, es, k + 1) == Apply(cfg, At(cfg, s, es, k), es[k])
    decreases |es|
  {
    if k > 0 {
      AtStep(cfg, Apply(cfg, s, es[0]), es[1..], k - 1);
    }
  }

  lemma {:induction false} AtEnd(cfg: Config, s: Sys, es: seq<Event>)
    requires IsRun(cfg, s, es)
    ensures At(cfg, s, es, |es|) == Final(cfg, s, es)
    decreases |es|
  {
    if es != [] {
      AtEnd(cfg, Apply(cfg, s, es[0]), es[1..]);
    }
  }

  ghost predicate Reachable(cfg: Config, roles: Roles, s: Sys) {
    exists es :: IsRun(cfg, Init(roles), es) && Final(cfg, Init(roles), es) == s
  }

  lemma InitIsReachable(cfg: Config, roles: Roles)
    ensures Reachable(cfg, roles, Init(roles))
  {
    assert IsRun(cfg, Init(roles), []) && Final(cfg, Init(roles), []) == Init(roles);
  }

  lemma {:induction false} RunThenStep(cfg: Config, s: Sys, es: seq<Event>, e: Event)
    requires IsRun(cfg, s, es) && Enabled(cfg, Final(cfg, s, es), e)
    ensures IsRun(cfg, s, es + [e]) && Final(cfg, s, es + [e]) == Apply(cfg, Final(cfg, s, es), e)
    decreases |es|
  {
    if es == [] {
      StepThenRun(cfg, s, e, []);
      assert es + [e] == [e] + [];
    } else {
      RunThenStep(cfg, Apply(cfg, s, es[0]), es[1..], e);
      assert (es + [e])[1..] == es[1..] + [e];
    }
  }

  lemma StepIsReachable(cfg: Config, roles: Roles, s: Sys, e: Event)
    requires Reachable(cfg, roles, s) && Enabled(cfg, s, e)
    ensures Reachable(cfg, roles, Apply(cfg, s, e))
  {
    var es :| IsRun(cfg, Init(roles), es) && Final(cfg, Init(roles), es) == s;
    RunThenStep(cfg, Init(roles), es, e);
  }

  lemma StepThenRun(cfg: Config, s: Sys, e: Event, es: seq<Event>)
    requires Enabled(cfg, s, e) && IsRun(cfg, Apply(cfg, s, e), es)
    ensures IsRun(cfg, s, [e] + es) && Final(cfg, s, [e] + es) == Final(cfg, Apply(cfg, s, e), es)
  {
  }

  // ---------- the protocol refines the monitor ----------

  /** The monitor steps one protocol step stands for: one, or none. */
  function Abstract(cfg: Config, s: Sys, e: Event): seq<M.Event>
    requires Enabled(cfg, s, e)
  {
    match e
    case Env(f) => [f]
    case Get(c) => [M.Get(c)]
    case AddNow(c, wake) => [AddEvent(s, c, wake)]
    case Finish(c, wake) => [FinishEvent(cfg, s, c, wake)]
    case LoopAdd(wake) => [M.Add(s.loop.item, s.loop.lane, wake)]
    case _ => []
  }

  /** It is that step. */
  lemma StepAtTheMonitor(cfg: Config, s: Sys, e: Event)
    requires Enabled(cfg, s, e)
    ensures var t, fs := Apply(cfg, s, e), Abstract(cfg, s, e);
            && s.phases.Keys <= t.phases.Keys
            && (fs == [] ==> t.m == s.m)
            && (fs != [] ==> |fs| == 1 && M.Enabled(cfg.policy, s.m, fs[0]) && t.m == M.Apply(cfg.policy, s.m, fs[0]))
            && (fs != [] && fs[0].Done? ==> e.Finish? && e.c == fs[0].c)
  {
    hide M.Enabled, M.Apply;
  }

  ghost function AbstractRun(cfg: Config, s: Sys, es: seq<Event>): seq<M.Event>
    requires IsRun(cfg, s, es)
    decreases |es|
  {
    if es == [] then []
    else Abstract(cfg, s, es[0]) + AbstractRun(cfg, Apply(cfg, s, es[0]), es[1..])
  }

  /** Every run of workers and others is a run of the monitor, so whatever all runs of the monitor
      keep is kept here: in particular each worker calls Done only for an item it holds. */
  lemma {:induction false} RunsRefineTheMonitor(cfg: Config, s: Sys, es: seq<Event>)
    requires IsRun(cfg, s, es)
    ensures M.IsRun(cfg.policy, s.m, AbstractRun(cfg, s, es))
    ensures M.Final(cfg.policy, s.m, AbstractRun(cfg, s, es)) == Final(cfg, s, es).m
    decreases |es|
  {
    if es != [] {
      var t := Apply(cfg, s, es[0]);
      RunsRefineTheMonitor(cfg, t, es[1..]);
      StepAtTheMonitor(cfg, s, es[0]);
      hide M.Enabled, M.Apply, Enabled, Apply, Abstract;
      var fs := Abstract(cfg, s, es[0]);
      var rest := AbstractRun(cfg, t, es[1..]);
      if fs == [] {
        assert fs + rest == rest;
      } else {
        M.StepThenRun(cfg.policy, s.m, fs[0], rest);
        assert fs + rest == [fs[0]] + rest;
      }
    }
  }

  /** So is every state reached, as far as the monitor sees it. */
  lemma ReachableAtTheMonitor(cfg: Config, roles: Roles, s: Sys)
    requires Reachable(cfg, roles, s)
    ensures M.Reachable(cfg.policy, roles, s.m)
  {
    var es :| IsRun(cfg, Init(roles), es) && Final(cfg, Init(roles), es) == s;
    RunsRefineTheMonitor(cfg, Init(roles), es);
  }
}
