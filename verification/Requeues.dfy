/** What becomes of an item its own worker adds again before Done. */
module Requeues {
  import opened Lanes
  import M = Monitor
  import opened Protocol
  import opened Retries
  import opened Histories

  // ---------- RequeueAfter ----------

  /** From step i to before step k worker c does not call Done. */
  ghost predicate SameTurn(h: History, i: nat, k: nat, c: Id)
    requires i <= k <= |h.es|
  {
    forall l :: i <= l < k ==> !CallsDone(h.es[l], c)
  }

  lemma HeldInStep(h: History, k: nat, c: Id)
    requires h.Valid() && k < |h.es| && Works(h.Now(k), c) && !CallsDone(h.es[k], c)
    ensures StillHolds(h.Now(k), h.Now(k + 1), c)
  {
    Step(h, k);
    InvAt(h.cfg, h.roles, h.es, k);
    hide IsRun, StepsTo, Inv, StillHolds, CallsDone;
    HeldStaysHeld(h.cfg, h.Now(k), h.es[k], h.Now(k + 1), c);
  }

  lemma {:induction false} HeldUntilDone(h: History, i: nat, k: nat, c: Id)
    requires h.Valid() && i <= k <= |h.es| && Works(h.Now(i), c)
    requires SameTurn(h, i, k, c)
    ensures StillHolds(h.Now(i), h.Now(k), c)
    decreases k
  {
    if i < k {
      HeldUntilDone(h, i, k - 1, c);
      HeldInStep(h, k - 1, c);
      hide IsRun, StillHolds;
      StillHoldsLonger(h.Now(i), h.Now(k - 1), h.Now(k), c);
    }
  }

  /** A success that asks for a requeue, RequeueAfter included, ends with the Add of step i. The Done
      of the same turn, step k, then queues the item at once, whatever others did: with RequeueAfter
      it comes back before its time, unless the queue had been shut down before that Add and the
      item was not dirty anyway. */
  lemma RequeueIsAtOnce(h: History, i: nat, k: nat, c: Id)
    requires h.Valid() && i < k < |h.es|
    requires h.es[i].AddNow? && h.es[i].c == c && CallsDone(h.es[k], c)
    requires SameTurn(h, i + 1, k, c)
    ensures Works(h.Now(i), c)
    ensures var x, s, t, u := ItemOf(h.Now(i), c), h.Now(i), h.Now(k), h.Now(k + 1);
            && x in t.m.q.processing && x !in u.m.q.processing
            && (u.m.q.IsQueued(x) <==> !s.m.q.shuttingDown || x in s.m.q.dirty)
  {
    hide IsRun;
    Step(h, i);
    InvAt(h.cfg, h.roles, h.es, i);
    WorkersFillNoLane(h.cfg, h.Now(i), h.es[i], h.Now(i + 1));
    HeldStaysHeld(h.cfg, h.Now(i), h.es[i], h.Now(i + 1), c);
    hide StepsTo, Inv;
    HeldUntilDone(h, i + 1, k, c);
    InvAt(h.cfg, h.roles, h.es, k);
    Step(h, k);
    FinishQueuesTheDirty(h.cfg, h.Now(k), h.es[k], h.Now(k + 1));
  }

  lemma FinishQueuesTheDirty(cfg: Config, s: Sys, e: Event, t: Sys)
    requires Inv(cfg, s) && StepsTo(cfg, s, e, t) && e.Finish?
    ensures Works(s, e.c)
    ensures var x := ItemOf(s, e.c);
            x in s.m.q.processing && x !in t.m.q.processing && (t.m.q.IsQueued(x) <==> x in s.m.q.dirty)
  {
    assert M.Holds(s.m, e.c, ItemOf(s, e.c));
    M.StepKeepsSafe(cfg.policy, s.m, FinishEvent(cfg, s, e.c, e.wake));
  }

  // ---------- a requeued item is staled ----------

  lemma FinishingStays(cfg: Config, s: Sys, e: Event, t: Sys, c: Id, x: Item)
    requires Inv(cfg, s) && StepsTo(cfg, s, e, t) && M.Holds(s.m, c, x) && c in s.phases
    requires s.phases[c] == Finishing && !CallsDone(e, c)
    ensures M.Holds(t.m, c, x) && c in t.phases && t.phases[c] == Finishing
    ensures Count(t.limiter, x) == Count(s.limiter, x)
  {
    assert Actor(e) != Some(c);
    OthersKeepCount(cfg, s, e, t, c, x);
    HeldStaysHeld(cfg, s, e, t, c);
    OthersKeepPhase(cfg, s, e, t, c);
    hide StepsTo, Inv;
  }

  lemma OthersKeepCount(cfg: Config, s: Sys, e: Event, t: Sys, c: Id, x: Item)
    requires M.ExclusiveHolders(s.m) && StepsTo(cfg, s, e, t) && M.Holds(s.m, c, x) && Actor(e) != Some(c)
    ensures Count(t.limiter, x) == Count(s.limiter, x)
  {
    hide M.Enabled, M.Apply;
    if e.When? || e.ForgetLimiter? {
      assert M.Holds(s.m, e.c, ItemOf(s, e.c));
    }
  }

  lemma {:induction false} FinishingUntilDone(h: History, i: nat, k: nat, c: Id, x: Item)
    requires h.Valid() && i <= k <= |h.es|
    requires M.Holds(h.Now(i).m, c, x) && c in h.Now(i).phases && h.Now(i).phases[c] == Finishing
    requires SameTurn(h, i, k, c)
    ensures M.Holds(h.Now(k).m, c, x) && Count(h.Now(k).limiter, x) == Count(h.Now(i).limiter, x)
    ensures c in h.Now(k).phases && h.Now(k).phases[c] == Finishing
    decreases k
  {
    hide IsRun;
    if i < k {
      FinishingUntilDone(h, i, k - 1, c, x);
      Step(h, k - 1);
      InvAt(h.cfg, h.roles, h.es, k - 1);
      hide StepsTo, Inv;
      FinishingStays(h.cfg, h.Now(k - 1), h.es[k - 1], h.Now(k), c, x);
    }
  }

  lemma AddEndsTheDecision(cfg: Config, s: Sys, e: Event, t: Sys)
    requires Inv(cfg, s) && StepsTo(cfg, s, e, t) && e.AddNow? && Works(s, e.c) && s.phases[e.c] == Readding
    ensures var x := ItemOf(s, e.c);
            M.Holds(t.m, e.c, x) && e.c in t.phases && t.phases[e.c] == Finishing && Count(t.limiter, x) == 0
  {
    assert M.Holds(s.m, e.c, ItemOf(s, e.c));
    HeldStaysHeld(cfg, s, e, t, e.c);
  }

  lemma FinishOfForgotten(cfg: Config, s: Sys, e: Event, t: Sys, x: Item)
    requires StepsTo(cfg, s, e, t) && e.Finish? && M.Holds(s.m, e.c, x) && Count(s.limiter, x) == 0
    ensures x in s.m.q.dirty ==>
      t.m.q == s.m.q.(processing := s.m.q.processing - {x}).Append(x, if cfg.threshold >= 0 then Staled else Fresh)
  {
  }

  lemma RequeuedUntilDone(h: History, i: nat, k: nat, c: Id)
    requires h.Valid() && i < k < |h.es| && h.es[i].AddNow? && h.es[i].c == c && SameTurn(h, i + 1, k, c)
    requires Works(h.Now(i), c) && h.Now(i).phases[c] == Readding
    ensures var x, s, t := ItemOf(h.Now(i), c), h.Now(i), h.Now(k);
            && M.Holds(t.m, c, x) && Count(t.limiter, x) == 0
            && (!s.m.q.shuttingDown || x in s.m.q.dirty ==> x in t.m.q.dirty)
  {
    hide IsRun;
    Step(h, i);
    InvAt(h.cfg, h.roles, h.es, i);
    AddEndsTheDecision(h.cfg, h.Now(i), h.es[i], h.Now(i + 1));
    WorkersFillNoLane(h.cfg, h.Now(i), h.es[i], h.Now(i + 1));
    hide StepsTo, Inv;
    FinishingUntilDone(h, i + 1, k, c, ItemOf(h.Now(i), c));
    HeldUntilDone(h, i + 1, k, c);
  }

  /** The Add with which a worker requeues its own item (step i) says fresh, but the item is in hand;
      the Done of the same turn (step k) puts it last in the staled lane, whatever others did: it
      had just been forgotten, and its count of zero is within any threshold the queue is built
      with. */
  lemma RequeuedItemIsStaled(h: History, i: nat, k: nat, c: Id)
    requires h.Valid() && i < k < |h.es|
    requires h.es[i].AddNow? && h.es[i].c == c && CallsDone(h.es[k], c)
    requires SameTurn(h, i + 1, k, c)
    requires c in h.Now(i).phases && h.Now(i).phases[c] == Readding
    ensures Works(h.Now(i), c)
    ensures var x, s, t, u := ItemOf(h.Now(i), c), h.Now(i).m.q, h.Now(k).m.q, h.Now(k + 1).m.q;
            !s.shuttingDown || x in s.dirty ==>
              u == t.(processing := t.processing - {x}).Append(x, if h.cfg.threshold >= 0 then Staled else Fresh)
  {
    hide IsRun;
    Step(h, i);
    Step(h, k);
    RequeuedUntilDone(h, i, k, c);
    FinishOfForgotten(h.cfg, h.Now(k), h.es[k], h.Now(k + 1), ItemOf(h.Now(i), c));
  }
}
