/** Runs of the workers' protocol, lanes chosen as the code chooses them, in which the queue does
    what its comments exclude; and the exact conditions for that. */
module Departures {
  import opened Lanes
  import M = Monitor
  import A = Accounting
  import W = Wakeups
  import opened Protocol

  ghost predicate Awake(s: Sys) {
    !M.AnyParked(s.m.pcs)
  }

  // ---------- one more step of a run, as an equation ----------

  lemma Adds(cfg: Config, roles: Roles, s: Sys, x: Item) returns (t: Sys)
    requires Reachable(cfg, roles, s) && Awake(s)
    ensures Reachable(cfg, roles, t) && t == s.(m := s.m.(q := Lanes.Add(s.m.q, x, Fresh)))
  {
    var e := Env(M.Add(x, Fresh, None));
    StepIsReachable(cfg, roles, s, e);
    t := Apply(cfg, s, e);
  }

  lemma Takes(cfg: Config, roles: Roles, s: Sys, c: Id, x: Item) returns (t: Sys)
    requires Reachable(cfg, roles, s) && M.IsWorker(s.m, c) && M.Is(s.m, c, M.Idle) && M.CanTake(s.m, c)
    requires x == Head(s.m.q, s.m.roles[c] == M.FreshGetter)
    ensures Reachable(cfg, roles, t)
    ensures t == s.(m := s.m.(q := Take(s.m.q, s.m.roles[c] == M.FreshGetter), pcs := s.m.pcs[c := M.Holding(x)]),
                    phases := s.phases[c := Reconciling])
  {
    StepIsReachable(cfg, roles, s, Get(c));
    t := Apply(cfg, s, Get(c));
  }

  lemma Parks(cfg: Config, roles: Roles, s: Sys, c: Id) returns (t: Sys)
    requires Reachable(cfg, roles, s) && M.IsWorker(s.m, c) && (M.Is(s.m, c, M.Idle) || M.Is(s.m, c, M.Woken))
    requires !M.CanTake(s.m, c) && !s.m.q.shuttingDown
    ensures Reachable(cfg, roles, t) && t == s.(m := s.m.(pcs := s.m.pcs[c := M.Parked]))
  {
    StepIsReachable(cfg, roles, s, Get(c));
    t := Apply(cfg, s, Get(c));
  }

  lemma Exits(cfg: Config, roles: Roles, s: Sys, c: Id) returns (t: Sys)
    requires Reachable(cfg, roles, s) && M.IsWorker(s.m, c) && M.Is(s.m, c, M.Idle)
    requires !M.CanTake(s.m, c) && s.m.q.shuttingDown
    ensures Reachable(cfg, roles, t) && t == s.(m := s.m.(pcs := s.m.pcs[c := M.Exited]))
  {
    StepIsReachable(cfg, roles, s, Get(c));
    t := Apply(cfg, s, Get(c));
  }

  lemma Finishes(cfg: Config, roles: Roles, s: Sys, c: Id, x: Item) returns (t: Sys)
    requires Reachable(cfg, roles, s) && Awake(s)
    requires M.Is(s.m, c, M.Holding(x)) && c in s.phases && s.phases[c] == Finishing
    ensures Reachable(cfg, roles, t)
    ensures t == s.(m := s.m.(q := Lanes.Finish(s.m.q, x, DoneLane(cfg, Count(s.limiter, x))),
                              pcs := s.m.pcs[c := M.Idle]),
                    phases := s.phases[c := Outside])
  {
    StepIsReachable(cfg, roles, s, Finish(c, None));
    t := Apply(cfg, s, Finish(c, None));
  }

  /** A worker's turn as far as Forget goes, if it succeeds. */
  lemma Succeeds(cfg: Config, roles: Roles, s: Sys, c: Id, x: Item, out: Outcome) returns (t: Sys)
    requires Reachable(cfg, roles, s) && LockIsFree(s) && out.Success?
    requires M.Is(s.m, c, M.Holding(x)) && c in s.phases && s.phases[c] == Reconciling
    ensures Reachable(cfg, roles, t)
    ensures t == s.(failures := s.failures - {x}, limiter := s.limiter - {x}, phases := s.phases[c := AfterForget(out)])
  {
    hide M.Enabled, M.Apply, Reachable;
    StepIsReachable(cfg, roles, s, Forget(c, out));
    var s1 := Apply(cfg, s, Forget(c, out));
    StepIsReachable(cfg, roles, s1, ForgetLimiter(c));
    t := Apply(cfg, s1, ForgetLimiter(c));
  }

  /** A worker's turn up to the call of AddAfter, if it fails. */
  lemma Fails(cfg: Config, roles: Roles, s: Sys, c: Id, x: Item, n: nat) returns (t: Sys)
    requires Reachable(cfg, roles, s) && LockIsFree(s) && !s.m.q.shuttingDown
    requires M.Is(s.m, c, M.Holding(x)) && c in s.phases && s.phases[c] == Reconciling
    requires Count(s.failures, x) == n && Count(s.limiter, x) == n
    ensures Reachable(cfg, roles, t)
    ensures t == s.(failures := s.failures[x := n + 1], limiter := s.limiter[x := n + 1],
                    phases := s.phases[c := Admitted(DelayFor(cfg, n + 1), false)])
  {
    hide M.Enabled, M.Apply, Reachable;
    StepIsReachable(cfg, roles, s, Fail(c));
    var s1 := Apply(cfg, s, Fail(c));
    StepIsReachable(cfg, roles, s1, When(c));
    var s2 := Apply(cfg, s1, When(c));
    StepIsReachable(cfg, roles, s2, CheckShutDown(c));
    t := Apply(cfg, s2, CheckShutDown(c));
  }

  lemma Sends(cfg: Config, roles: Roles, s: Sys, c: Id, x: Item) returns (t: Sys)
    requires Reachable(cfg, roles, s)
    requires M.Is(s.m, c, M.Holding(x)) && c in s.phases && s.phases[c].Admitted? && s.phases[c].delay > 0
    ensures Reachable(cfg, roles, t)
    ensures t == s.(channel := s.channel + [Request(x, s.now + s.phases[c].delay)],
                    phases := s.phases[c := AfterAddAfter(s.phases[c].again)])
  {
    StepIsReachable(cfg, roles, s, Send(c));
    t := Apply(cfg, s, Send(c));
  }

  lemma AddsAtOnce(cfg: Config, roles: Roles, s: Sys, c: Id, x: Item) returns (t: Sys)
    requires Reachable(cfg, roles, s) && LockIsFree(s) && Awake(s)
    requires M.Is(s.m, c, M.Holding(x)) && c in s.phases && s.phases[c].Admitted? && s.phases[c].delay <= 0
    requires s.m.q == Queue([], [], {}, {x}, false)
    ensures Reachable(cfg, roles, t)
    ensures t == s.(m := s.m.(q := Queue([], [], {x}, {x}, false)),
                    phases := s.phases[c := AfterAddAfter(s.phases[c].again)])
  {
    StepIsReachable(cfg, roles, s, ReadFresh(c));
    var s1 := Apply(cfg, s, ReadFresh(c));
    StepIsReachable(cfg, roles, s1, AddNow(c, None));
    t := Apply(cfg, s1, AddNow(c, None));
    assert {} + {x} == {x};
  }

  // ---------- an item that fails again and again ----------

  /** The waiting loop has not yet done anything, and all it will be asked is to add x. */
  ghost predicate LoopSleepsFor(s: Sys, x: Item) {
    s.loop == AtTop && s.waiting == map[] && forall i :: 0 <= i < |s.channel| ==> s.channel[i].item == x
  }

  /** Worker g holds x, which failed n times in a row, and nobody else has done anything. */
  ghost predicate Tries(s: Sys, roles: Roles, g: Id, x: Item, n: nat) {
    && s.m == M.State(Queue([], [], {}, {x}, false), roles, M.Init(roles).pcs[g := M.Holding(x)])
    && s.phases == Init(roles).phases[g := Reconciling]
    && Count(s.failures, x) == n && Count(s.limiter, x) == n
    && LoopSleepsFor(s, x)
  }

  /** Nobody holds anything. */
  ghost predicate Rests(s: Sys, roles: Roles) {
    s.m == M.Init(roles) && s.phases == Init(roles).phases
  }

  lemma FirstTry(cfg: Config, roles: Roles, g: Id, x: Item) returns (s: Sys)
    requires M.IsWorker(M.Init(roles), g)
    ensures Reachable(cfg, roles, s) && Tries(s, roles, g, x, 0) && s.channel == []
  {
    hide Enabled, Apply, Reachable;
    InitIsReachable(cfg, roles);
    var s1 := Adds(cfg, roles, Init(roles), x);
    assert s1.m.q == Queue([x], [], {x}, {}, false);
    s := Takes(cfg, roles, s1, g, x);
    assert s.m.q == Queue([], [], {}, {x}, false);
  }

  /** Somebody adds the held item again, and Done and the next Get bring it straight back: Get
      takes it from whichever lane Done chose. */
  lemma NextTry(cfg: Config, roles: Roles, s: Sys, g: Id, x: Item, n: nat) returns (t: Sys)
    requires M.HasRole(M.Init(roles), g, M.Getter) && Reachable(cfg, roles, s)
    requires s.m.roles == roles && s.m.pcs == M.Init(roles).pcs[g := M.Holding(x)]
    requires s.m.q == Queue([], [], s.m.q.dirty, {x}, false) && s.m.q.dirty <= {x}
    requires s.phases == Init(roles).phases[g := Finishing]
    requires Count(s.failures, x) == n && Count(s.limiter, x) == n && LoopSleepsFor(s, x)
    ensures Reachable(cfg, roles, t) && Tries(t, roles, g, x, n) && t.channel == s.channel
  {
    hide Enabled, Apply, Reachable;
    var s1 := Adds(cfg, roles, s, x);
    assert s1.m.q == Queue([], [], {x}, {x}, false);
    var s2 := Finishes(cfg, roles, s1, g, x);
    t := Takes(cfg, roles, s2, g, x);
    assert t.m.q == Queue([], [], {}, {x}, false);
    assert t.m.pcs == M.Init(roles).pcs[g := M.Holding(x)];
    assert t.phases == Init(roles).phases[g := Reconciling];
  }

  /** One failure more. */
  lemma FailsAgain(cfg: Config, roles: Roles, s: Sys, g: Id, x: Item, n: nat) returns (t: Sys)
    requires M.HasRole(M.Init(roles), g, M.Getter)
    requires Reachable(cfg, roles, s) && Tries(s, roles, g, x, n)
    ensures Reachable(cfg, roles, t) && Tries(t, roles, g, x, n + 1) && (s.channel != [] ==> t.channel != [])
  {
    hide Enabled, Apply, Reachable;
    var s1 := Fails(cfg, roles, s, g, x, n);
    if DelayFor(cfg, n + 1) > 0 {
      t := Sends(cfg, roles, s1, g, x);
    } else {
      t := AddsAtOnce(cfg, roles, s1, g, x);
    }
    t := NextTry(cfg, roles, t, g, x, n + 1);
  }

  lemma {:induction false} FailsOnAndOn(cfg: Config, roles: Roles, s: Sys, g: Id, x: Item, n: nat, last: nat)
    returns (t: Sys)
    requires M.HasRole(M.Init(roles), g, M.Getter)
    requires Reachable(cfg, roles, s) && Tries(s, roles, g, x, n) && n <= last
    ensures Reachable(cfg, roles, t) && Tries(t, roles, g, x, last) && (s.channel != [] ==> t.channel != [])
    decreases last - n
  {
    if n == last {
      t := s;
    } else {
      t := FailsAgain(cfg, roles, s, g, x, n);
      t := FailsOnAndOn(cfg, roles, t, g, x, n + 1, last);
    }
  }

  /** The failure that uses the budget up: its retry is sent to the waiting loop. */
  lemma FailsOnceTooOften(cfg: Config, roles: Roles, s: Sys, g: Id, x: Item, n: nat) returns (t: Sys)
    requires Reachable(cfg, roles, s) && Tries(s, roles, g, x, n) && DelayFor(cfg, n + 1) > 0
    requires M.IsWorker(M.Init(roles), g)
    ensures Reachable(cfg, roles, t) && Rests(t, roles) && LoopSleepsFor(t, x) && t.channel != []
    ensures Count(t.failures, x) == n + 1
  {
    hide Enabled, Apply, Reachable;
    var s1 := Fails(cfg, roles, s, g, x, n);
    var s2 := Sends(cfg, roles, s1, g, x);
    t := Finishes(cfg, roles, s2, g, x);
    assert t.m.q == EMPTY;
    assert t.m.pcs == M.Init(roles).pcs;
    assert t.phases == Init(roles).phases;
  }

  // ---------- the waiting loop finds it staled ----------

  /** The loop receives the first request for x, which is due by now, and reads isFresh. */
  lemma LoopReads(cfg: Config, roles: Roles, s: Sys, x: Item) returns (t: Sys)
    requires Reachable(cfg, roles, s) && LoopSleepsFor(s, x) && s.channel != []
    requires LockIsFree(s) && !s.m.q.shuttingDown && Count(s.failures, x) > cfg.threshold
    ensures Reachable(cfg, roles, t)
    ensures t == s.(now := t.now, channel := t.channel, loop := t.loop)
    ensures t.loop == ToPlace(x, s.channel[0].readyAt, Staled, ToReceive)
  {
    hide M.Enabled, M.Apply, Reachable;
    var e := Tick(if s.channel[0].readyAt > s.now then s.channel[0].readyAt - s.now else 0);
    StepIsReachable(cfg, roles, s, e);
    var s1 := Apply(cfg, s, e);
    StepIsReachable(cfg, roles, s1, LoopCheck);
    var s2 := Apply(cfg, s1, LoopCheck);
    StepIsReachable(cfg, roles, s2, LoopSleep);
    var s3 := Apply(cfg, s2, LoopSleep);
    t := LoopReceives(cfg, roles, s3, x);
  }

  lemma LoopReceives(cfg: Config, roles: Roles, s: Sys, x: Item) returns (t: Sys)
    requires Reachable(cfg, roles, s) && s.loop == InSelect && s.channel != []
    requires s.channel[0].item == x && s.channel[0].readyAt <= s.now
    requires LockIsFree(s) && Count(s.failures, x) > cfg.threshold
    ensures Reachable(cfg, roles, t)
    ensures t == s.(channel := s.channel[1..], loop := ToPlace(x, s.channel[0].readyAt, Staled, ToReceive))
  {
    hide M.Enabled, M.Apply, Reachable;
    StepIsReachable(cfg, roles, s, LoopTake);
    var s1 := Apply(cfg, s, LoopTake);
    StepIsReachable(cfg, roles, s1, LoopRead);
    t := Apply(cfg, s1, LoopRead);
  }

  // ---------- and wakes the wrong worker ----------

  /** First f, then g fall asleep. */
  lemma BothPark(cfg: Config, roles: Roles, s: Sys, f: Id, g: Id) returns (t: Sys)
    requires Reachable(cfg, roles, s) && Rests(s, roles)
    requires M.HasRole(M.Init(roles), g, M.Getter) && M.HasRole(M.Init(roles), f, M.FreshGetter)
    ensures Reachable(cfg, roles, t) && t == s.(m := t.m)
    ensures t.m == M.State(EMPTY, roles, M.Init(roles).pcs[f := M.Parked][g := M.Parked])
  {
    hide Enabled, Apply, Reachable;
    var s1 := Parks(cfg, roles, s, f);
    t := Parks(cfg, roles, s1, g);
  }

  /** The signal goes to f, who waited longer; f finds nothing fresh and sleeps again. */
  lemma WrongWorkerWakes(cfg: Config, roles: Roles, s: Sys, f: Id, g: Id, x: Item) returns (t: Sys)
    requires Reachable(cfg, roles, s)
    requires M.HasRole(M.Init(roles), g, M.Getter) && M.HasRole(M.Init(roles), f, M.FreshGetter)
    requires s.m == M.State(EMPTY, roles, M.Init(roles).pcs[f := M.Parked][g := M.Parked])
    requires s.loop.ToPlace? && s.loop.item == x && s.loop.lane == Staled
    ensures Reachable(cfg, roles, t) && W.Lost(t.m) && M.Is(t.m, g, M.Parked) && t.m.q.queueStaled == [x]
    ensures t.failures == s.failures
  {
    hide Reachable;
    StepIsReachable(cfg, roles, s, LoopAdd(Some(f)));
    var s1 := Apply(cfg, s, LoopAdd(Some(f)));
    assert s1.m.q == Queue([], [x], {x}, {}, false);
    assert s1.m.pcs == M.Init(roles).pcs[f := M.Woken][g := M.Parked];
    t := Parks(cfg, roles, s1, f);
    hide Enabled, Apply;
    assert W.WokenCallers(t.m) == {};
    assert M.IsWorker(t.m, g) && M.Is(t.m, g, M.Parked) && M.CanTake(t.m, g);
  }

  /** x fails once more than the budget allows, f falls asleep and then g, and the waiting loop adds
      x as staled: the one signal wakes f, and g sleeps beside an item it could take. */
  lemma StaledRetryWakesTheWrongWorker(cfg: Config, roles: Roles, f: Id, g: Id, x: Item) returns (s: Sys)
    requires M.HasRole(M.Init(roles), g, M.Getter) && M.HasRole(M.Init(roles), f, M.FreshGetter)
    requires cfg.slow > 0
    ensures Reachable(cfg, roles, s) && W.Lost(s.m) && M.Is(s.m, g, M.Parked) && s.m.q.queueStaled == [x]
    ensures Count(s.failures, x) > cfg.threshold
  {
    hide Enabled, Apply, Reachable;
    var last := if cfg.threshold < 0 then 0 else cfg.threshold;
    s := FirstTry(cfg, roles, g, x);
    s := FailsOnAndOn(cfg, roles, s, g, x, 0, last);
    s := FailsOnceTooOften(cfg, roles, s, g, x, last);
    s := BothPark(cfg, roles, s, f, g);
    s := LoopReads(cfg, roles, s, x);
    s := WrongWorkerWakes(cfg, roles, s, f, g, x);
  }

  /** g succeeds on x and asks for it again after a while: the request is sent, and x added at once. */
  lemma AsksForLater(cfg: Config, roles: Roles, s: Sys, g: Id, x: Item) returns (t: Sys)
    requires M.HasRole(M.Init(roles), g, M.Getter)
    requires Reachable(cfg, roles, s) && Tries(s, roles, g, x, 0) && s.channel == []
    ensures Reachable(cfg, roles, t) && Tries(t, roles, g, x, 0) && t.channel != []
  {
    hide Reachable, M.Apply, M.Enabled;
    t := Succeeds(cfg, roles, s, g, x, Success(false, 1));
    StepIsReachable(cfg, roles, t, CheckShutDown(g));
    t := Apply(cfg, t, CheckShutDown(g));
    hide Enabled, Apply;
    t := Sends(cfg, roles, t, g, x);
    t := AddsAgain(cfg, roles, t, g, x);
    t := NextTry(cfg, roles, t, g, x, 0);
  }

  lemma AddsAgain(cfg: Config, roles: Roles, s: Sys, c: Id, x: Item) returns (t: Sys)
    requires Reachable(cfg, roles, s) && Awake(s)
    requires M.Is(s.m, c, M.Holding(x)) && c in s.phases && s.phases[c] == Readding
    requires s.m.q == Queue([], [], {}, {x}, false)
    ensures Reachable(cfg, roles, t)
    ensures t == s.(m := s.m.(q := Queue([], [], {x}, {x}, false)), phases := s.phases[c := Finishing])
  {
    StepIsReachable(cfg, roles, s, AddNow(c, None));
    t := Apply(cfg, s, AddNow(c, None));
    assert {} + {x} == {x};
  }

  /** Without a slow delay no failed item ever leaves the worker's hands while it counts as staled.
      Then the loop, adding x for an earlier RequeueAfter, reads isFresh while x is failing; x
      succeeds, both workers fall asleep, and the add goes by the old reading. */
  lemma StaleReadingWakesTheWrongWorker(cfg: Config, roles: Roles, f: Id, g: Id, x: Item) returns (s: Sys)
    requires M.HasRole(M.Init(roles), g, M.Getter) && M.HasRole(M.Init(roles), f, M.FreshGetter)
    ensures Reachable(cfg, roles, s) && W.Lost(s.m) && M.Is(s.m, g, M.Parked) && s.m.q.queueStaled == [x]
  {
    hide Enabled, Apply, Reachable;
    s := FirstTry(cfg, roles, g, x);
    s := AsksForLater(cfg, roles, s, g, x);
    s := FailsOnAndOn(cfg, roles, s, g, x, 0, if cfg.threshold < 0 then 0 else cfg.threshold + 1);
    s := LoopReads(cfg, roles, s, x);
    s := Succeeds(cfg, roles, s, g, x, Success(false, 0));
    s := Finishes(cfg, roles, s, g, x);
    assert s.m.q == EMPTY;
    assert s.m.pcs == M.Init(roles).pcs;
    assert s.phases == Init(roles).phases;
    s := BothPark(cfg, roles, s, f, g);
    s := WrongWorkerWakes(cfg, roles, s, f, g, x);
  }

  /** Exactly when no wake-up is ever lost, whatever the threshold and the delays: the workers must
      all use Get, or all use GetFresh. */
  lemma WakeupsAreSafeIffUniform(cfg: Config, roles: Roles)
    ensures (forall s :: Reachable(cfg, roles, s) ==> !W.Lost(s.m))
       <==> (W.Uniform(roles, M.Getter) || W.Uniform(roles, M.FreshGetter))
  {
    if W.Uniform(roles, M.Getter) || W.Uniform(roles, M.FreshGetter) {
      forall s | Reachable(cfg, roles, s) ensures !W.Lost(s.m) {
        ReachableAtTheMonitor(cfg, roles, s);
        var role := if W.Uniform(roles, M.Getter) then M.Getter else M.FreshGetter;
        W.UniformWorkersAreCovered(cfg.policy, roles, s.m, role);
      }
    } else {
      var f :| f in roles && roles[f] != M.Getter && roles[f] != M.Drainer;
      var g :| g in roles && roles[g] != M.FreshGetter && roles[g] != M.Drainer;
      var x: Item :| true;
      if cfg.slow > 0 {
        var s := StaledRetryWakesTheWrongWorker(cfg, roles, f, g, x);
      } else {
        var s := StaleReadingWakesTheWrongWorker(cfg, roles, f, g, x);
      }
    }
  }

  // ---------- work left behind ----------

  /** With the queue shut down and the lanes empty, idle workers leave one by one. */
  lemma {:induction false} LetExit(cfg: Config, roles: Roles, s: Sys, cs: set<Id>) returns (t: Sys)
    requires Reachable(cfg, roles, s) && s.m.q.shuttingDown && s.m.q.Len() == 0
    requires forall c :: c in cs ==> M.IsWorker(s.m, c) && M.Is(s.m, c, M.Idle)
    ensures Reachable(cfg, roles, t) && t == s.(m := s.m.(pcs := t.m.pcs)) && t.m.pcs.Keys == s.m.pcs.Keys
    ensures forall c :: c in s.m.pcs ==> t.m.pcs[c] == if c in cs then M.Exited else s.m.pcs[c]
    decreases |cs|
  {
    if cs == {} {
      t := s;
    } else {
      var c :| c in cs;
      var u := Exits(cfg, roles, s, c);
      t := LetExit(cfg, roles, u, cs - {c});
    }
  }

  /** x became dirty again while worker w holds it: counted by the depth gauge, not by Len. */
  lemma DirtyWhileHeld(cfg: Config, roles: Roles, w: Id, x: Item) returns (s: Sys)
    requires M.IsWorker(M.Init(roles), w)
    ensures Reachable(cfg, roles, s) && s.m.q == Queue([], [], {x}, {x}, false)
    ensures |s.m.q.dirty| == 1 && s.m.q.Len() == 0
    ensures s.m.roles == roles && s.m.pcs == M.Init(roles).pcs[w := M.Holding(x)]
    ensures s.phases == Init(roles).phases[w := Reconciling]
  {
    hide Enabled, Apply, Reachable;
    s := FirstTry(cfg, roles, w, x);
    s := Adds(cfg, roles, s, x);
    assert s.m.q.dirty == {x};
  }

  /** The worker meant for staled items takes a fresh one. */
  lemma StaledWorkerTakesFresh(cfg: Config, roles: Roles, g: Id, x: Item) returns (s: Sys)
    requires M.HasRole(M.Init(roles), g, M.Getter)
    ensures Reachable(cfg, roles, s) && x in s.m.q.queueFresh
    ensures M.Enabled(cfg.policy, s.m, M.Get(g)) && A.Delivers(s.m, M.Get(g)) && A.DeliveredItem(s.m, M.Get(g)) == x
  {
    InitIsReachable(cfg, roles);
    s := Adds(cfg, roles, Init(roles), x);
    assert s.m.q == Queue([x], [], {x}, {}, false);
  }

  /** A worker on the FreshOnlyInterface finishes such an item after a shutdown. The item succeeded,
      so Done files it as staled, and everybody leaves without it. */
  lemma FreshWorkerLeavesWork(cfg: Config, roles: Roles, f: Id, x: Item) returns (s: Sys)
    requires M.HasRole(M.Init(roles), f, M.FreshGetter) && cfg.threshold >= 0
    ensures Reachable(cfg, roles, s) && A.AllWorkersExited(s.m) && s.m.q == Queue([], [x], {x}, {}, true)
  {
    hide Reachable;
    s := DirtyWhileHeld(cfg, roles, f, x);
    StepIsReachable(cfg, roles, s, Env(M.Event.ShutDown));
    s := Apply(cfg, s, Env(M.Event.ShutDown));
    assert s.m.pcs == M.Init(roles).pcs[f := M.Holding(x)];
    hide Enabled, Apply;
    var others := set c | c in roles && roles[c] != M.Drainer && c != f;
    s := LetExit(cfg, roles, s, others);
    s := Succeeds(cfg, roles, s, f, x, Success(false, 0));
    s := Finishes(cfg, roles, s, f, x);
    assert s.m.q == Queue([], [x], {x}, {}, true);
    s := Exits(cfg, roles, s, f);
  }

  /** Exactly when nothing accepted is left behind once all workers have gone: no worker may be
      a GetFresh worker. */
  lemma NothingLeftIffGetOnly(cfg: Config, roles: Roles)
    requires cfg.threshold >= 0 && exists w :: M.IsWorker(M.Init(roles), w)
    ensures (forall s :: Reachable(cfg, roles, s) && A.AllWorkersExited(s.m) ==> s.m.q.dirty == {})
       <==> (forall c :: c in roles ==> roles[c] != M.FreshGetter)
  {
    var w :| M.IsWorker(M.Init(roles), w);
    if f :| f in roles && roles[f] == M.FreshGetter {
      var x: Item :| true;
      var s := FreshWorkerLeavesWork(cfg, roles, f, x);
      assert x in s.m.q.dirty;
    } else {
      forall s | Reachable(cfg, roles, s) && A.AllWorkersExited(s.m) ensures s.m.q.dirty == {} {
        ReachableAtTheMonitor(cfg, roles, s);
        A.GetOnlyWorkersLeaveNothing(cfg.policy, roles, s.m, w);
      }
    }
  }
}
