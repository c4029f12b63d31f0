/** The worker as a class's client and the worker of the protocol are the same: an undisturbed turn
    of the one is a run of the other. */
module Turns {
  import opened Lanes
  import M = Monitor
  import opened Protocol
  import QS = QueueSpec
  import W = Workers

  /** What the queue's operations work on. */
  function View(s: Sys): QS.QueueState {
    QS.QueueState(s.m.q, s.failures, s.limiter, s.channel)
  }

  /** c is inside a turn with x. */
  predicate Has(s: Sys, c: Id, x: Item) {
    M.Is(s.m, c, M.Holding(x)) && c in s.phases
  }

  /** From s to t nobody has moved but c, and the callers its signals wake. */
  predicate OnlyMoves(s: Sys, t: Sys, c: Id) {
    && c in t.phases && t.phases == s.phases[c := t.phases[c]]
    && t.waiting == s.waiting && t.loop == s.loop && t.now == s.now && t.m.roles == s.m.roles
  }

  lemma SomeWake(pcs: map<Id, M.Pc>) returns (wake: Option<Id>)
    ensures M.MayWake(pcs, wake)
  {
    if M.AnyParked(pcs) {
      var b :| b in pcs && pcs[b] == M.Parked;
      wake := Some(b);
    } else {
      wake := None;
    }
  }

  lemma CallsAdd(cfg: Config, roles: Roles, s: Sys, c: Id, x: Item) returns (t: Sys)
    requires Reachable(cfg, roles, s) && Has(s, c, x) && (s.phases[c].Adding? || s.phases[c] == Readding)
    ensures Reachable(cfg, roles, t) && Has(t, c, x) && OnlyMoves(s, t, c)
    ensures t.phases[c] == AfterAddAfter(s.phases[c].Adding? && s.phases[c].again)
    ensures View(t) == QS.Added(View(s), x, if s.phases[c].Adding? then s.phases[c].lane else Fresh)
  {
    var wake := SomeWake(s.m.pcs);
    StepIsReachable(cfg, roles, s, AddNow(c, wake));
    t := Apply(cfg, s, AddNow(c, wake));
  }

  lemma CallsAddAfter(cfg: Config, roles: Roles, s: Sys, c: Id, x: Item) returns (t: Sys)
    requires Reachable(cfg, roles, s) && LockIsFree(s) && Has(s, c, x) && s.phases[c].Delaying?
    ensures Reachable(cfg, roles, t) && Has(t, c, x) && OnlyMoves(s, t, c)
    ensures t.phases[c] == AfterAddAfter(s.phases[c].again)
    ensures View(t) == QS.AddedAfter(cfg, View(s), x, s.phases[c].delay, s.now)
  {
    hide M.Enabled, M.Apply, Reachable;
    StepIsReachable(cfg, roles, s, CheckShutDown(c));
    t := Apply(cfg, s, CheckShutDown(c));
    if !s.m.q.shuttingDown {
      t := AdmittedToAddAfter(cfg, roles, t, c, x);
    }
  }

  lemma AdmittedToAddAfter(cfg: Config, roles: Roles, s: Sys, c: Id, x: Item) returns (t: Sys)
    requires Reachable(cfg, roles, s) && LockIsFree(s) && Has(s, c, x) && s.phases[c].Admitted?
    requires !s.m.q.shuttingDown
    ensures Reachable(cfg, roles, t) && Has(t, c, x) && OnlyMoves(s, t, c)
    ensures t.phases[c] == AfterAddAfter(s.phases[c].again)
    ensures View(t) == QS.AddedAfter(cfg, View(s), x, s.phases[c].delay, s.now)
  {
    hide M.Enabled, M.Apply, Reachable;
    if s.phases[c].delay > 0 {
      StepIsReachable(cfg, roles, s, Send(c));
      t := Apply(cfg, s, Send(c));
    } else {
      StepIsReachable(cfg, roles, s, ReadFresh(c));
      t := Apply(cfg, s, ReadFresh(c));
      t := CallsAdd(cfg, roles, t, c, x);
    }
  }

  lemma CallsDone(cfg: Config, roles: Roles, s: Sys, c: Id, x: Item) returns (t: Sys)
    requires Reachable(cfg, roles, s) && Has(s, c, x) && s.phases[c] == Finishing
    ensures Reachable(cfg, roles, t) && M.Is(t.m, c, M.Idle) && OnlyMoves(s, t, c) && t.phases[c] == Outside
    ensures View(t) == QS.Finished(cfg, View(s), x)
  {
    var wake := SomeWake(s.m.pcs);
    StepIsReachable(cfg, roles, s, Finish(c, wake));
    t := Apply(cfg, s, Finish(c, wake));
  }

  lemma CallsAddRateLimited(cfg: Config, roles: Roles, s: Sys, c: Id, x: Item) returns (t: Sys)
    requires Reachable(cfg, roles, s) && LockIsFree(s) && Has(s, c, x) && s.phases[c] == Reconciling
    ensures Reachable(cfg, roles, t) && Has(t, c, x) && OnlyMoves(s, t, c) && t.phases[c] == Finishing
    ensures View(t) == QS.AddedRateLimited(cfg, View(s), x, s.now)
  {
    hide M.Enabled, M.Apply, Reachable;
    StepIsReachable(cfg, roles, s, Fail(c));
    t := Apply(cfg, s, Fail(c));
    StepIsReachable(cfg, roles, t, When(c));
    t := Apply(cfg, t, When(c));
    hide Enabled, Apply;
    t := CallsAddAfter(cfg, roles, t, c, x);
  }

  lemma CallsForget(cfg: Config, roles: Roles, s: Sys, c: Id, x: Item, out: Outcome) returns (t: Sys)
    requires Reachable(cfg, roles, s) && LockIsFree(s) && Has(s, c, x) && s.phases[c] == Reconciling && out.Success?
    ensures Reachable(cfg, roles, t) && Has(t, c, x) && OnlyMoves(s, t, c) && t.phases[c] == AfterForget(out)
    ensures View(t) == QS.Forgotten(View(s), x)
  {
    hide M.Enabled, M.Apply, Reachable;
    StepIsReachable(cfg, roles, s, Forget(c, out));
    t := Apply(cfg, s, Forget(c, out));
    StepIsReachable(cfg, roles, t, ForgetLimiter(c));
    t := Apply(cfg, t, ForgetLimiter(c));
  }

  /** From the outcome of reconcile to Done. */
  lemma DecisionIsARun(cfg: Config, roles: Roles, s: Sys, c: Id, x: Item, out: Outcome) returns (t: Sys)
    requires Reachable(cfg, roles, s) && LockIsFree(s) && Has(s, c, x) && s.phases[c] == Reconciling
    ensures Reachable(cfg, roles, t) && M.Is(t.m, c, M.Idle) && OnlyMoves(s, t, c) && t.phases[c] == Outside
    ensures View(t) == W.Processed(cfg, View(s), x, out, s.now, W.NOBODY)
  {
    hide Reachable;
    if out.Failure? {
      t := CallsAddRateLimited(cfg, roles, s, c, x);
    } else {
      t := CallsForget(cfg, roles, s, c, x, out);
      if out.requeueAfter > 0 {
        t := CallsAddAfter(cfg, roles, t, c, x);
      }
      if out.requeue || out.requeueAfter > 0 {
        t := CallsAdd(cfg, roles, t, c, x);
      }
    }
    t := CallsDone(cfg, roles, t, c, x);
  }

  /** A turn of a worker that nobody disturbs, from any state any run of the protocol can reach with
      failuresLock free, is a run of the protocol: the same queue, counters and channel, and the
      worker idle again, told to stop, or parked. It goes by what reconcile says of the item taken. */
  lemma TurnIsARun(cfg: Config, roles: Roles, s: Sys, c: Id, reconcile: Item -> Outcome) returns (t: Sys)
    requires Reachable(cfg, roles, s) && LockIsFree(s)
    requires M.IsWorker(s.m, c) && M.Is(s.m, c, M.Idle) && c in s.phases && s.phases[c] == Outside
    ensures Reachable(cfg, roles, t) && OnlyMoves(s, t, c) && t.phases[c] == Outside
    ensures var turn := W.Turn([], reconcile, W.NOBODY, _ => s.now);
            var (after, r) := W.AfterTurn(cfg, View(s), s.m.roles[c] == M.FreshGetter, turn);
            && View(t) == after
            && M.Is(t.m, c, match r case Handled(_) => M.Idle case Stopped => M.Exited case Waiting => M.Parked)
            && (r.Handled? ==>
                  && r.item == (if s.m.q.queueFresh != [] then s.m.q.queueFresh[0] else s.m.q.queueStaled[0])
                  && Count(t.failures, r.item)
                     == if reconcile(r.item).Failure? then Count(s.failures, r.item) + 1 else 0)
  {
    hide Reachable;
    StepIsReachable(cfg, roles, s, Get(c));
    t := Apply(cfg, s, Get(c));
    if M.CanTake(s.m, c) {
      var x := Head(s.m.q, s.m.roles[c] == M.FreshGetter);
      assert View(t) == QS.Got(View(s), s.m.roles[c] == M.FreshGetter);
      hide Enabled, Apply;
      t := DecisionIsARun(cfg, roles, t, c, x, reconcile(x));
      W.TurnGoesByTheOutcome(cfg, View(s), s.m.roles[c] == M.FreshGetter, W.Turn([], reconcile, W.NOBODY, _ => s.now));
    }
  }
}
