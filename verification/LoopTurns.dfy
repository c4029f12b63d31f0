/** The waiting loop with its heap and the waiting loop of the protocol are the same: what the one
    does before it sleeps, and what it does with the requests it receives, are runs of the other. */
module LoopTurns {
  import opened Lanes
  import opened DelayedItems
  import opened LoopLog
  import opened WaitingLoops
  import M = Monitor
  import opened Protocol
  import QS = QueueSpec
  import T = Turns

  /** From s to t only the waiting loop has moved, and the callers its signals wake. */
  predicate OnlyLoopMoves(s: Sys, t: Sys) {
    t.phases == s.phases && t.failures == s.failures && t.m.roles == s.m.roles
  }

  /** isFresh, then q.add. */
  lemma LoopPasses(cfg: Config, roles: Roles, s: Sys) returns (t: Sys)
    requires Reachable(cfg, roles, s) && LockIsFree(s) && s.loop.ToPass?
    ensures Reachable(cfg, roles, t) && OnlyLoopMoves(s, t)
    ensures t == s.(m := t.m, loop := AfterAdd(s.loop.back))
    ensures T.View(t) == AfterAct(cfg, T.View(s), PassedOn(s.loop.item, s.loop.readyAt, s.now))
  {
    hide Reachable;
    StepIsReachable(cfg, roles, s, LoopRead);
    t := Apply(cfg, s, LoopRead);
    var wake := T.SomeWake(t.m.pcs);
    StepIsReachable(cfg, roles, t, LoopAdd(wake));
    t := Apply(cfg, t, LoopAdd(wake));
  }

  /** The earliest entry is due, leaves the heap and is passed on. */
  lemma DrainsOne(cfg: Config, roles: Roles, s: Sys, x: Item, now: Time) returns (t: Sys)
    requires Reachable(cfg, roles, s) && LockIsFree(s) && s.loop == InDrain(now)
    requires IsEarliest(s.waiting, x) && s.waiting[x] <= now
    ensures Reachable(cfg, roles, t) && OnlyLoopMoves(s, t)
    ensures t == s.(m := t.m, waiting := s.waiting - {x})
    ensures T.View(t) == AfterAct(cfg, T.View(s), PassedOn(x, s.waiting[x], s.now))
  {
    hide Reachable, M.Enabled, M.Apply;
    StepIsReachable(cfg, roles, s, LoopPop(x));
    t := Apply(cfg, s, LoopPop(x));
    hide Enabled, Apply;
    t := LoopPasses(cfg, roles, t);
  }

  lemma NextIsEarliest(before: map<Item, Time>, acts: seq<Act>, k: nat, now: Time)
    requires Drained(acts, before, now) && k < |acts|
    ensures IsEarliest(Without(before, acts, k, now), acts[k].item)
  {
    WithoutOneMore(before, acts, k, now);
    var waiting := Without(before, acts, k, now);
    forall y | y in waiting ensures waiting[acts[k].item] <= waiting[y] {
      if before[y] <= now {
        var j :| 0 <= j < |acts| && acts[j] == PassedOn(y, before[y], now);
        assert j < k ==> acts[j] in acts[..k];
      }
    }
  }

  lemma {:induction false} DrainsSome(cfg: Config, roles: Roles, s: Sys, acts: seq<Act>, k: nat) returns (t: Sys)
    requires Reachable(cfg, roles, s) && LockIsFree(s) && s.loop == InDrain(s.now)
    requires Drained(acts, s.waiting, s.now) && k <= |acts|
    ensures Reachable(cfg, roles, t) && OnlyLoopMoves(s, t)
    ensures t == s.(m := t.m, waiting := Without(s.waiting, acts, k, s.now))
    ensures T.View(t) == Replay(cfg, T.View(s), acts[..k])
  {
    hide Reachable;
    if k == 0 {
      t := s;
      assert Without(s.waiting, acts, 0, s.now) == s.waiting;
    } else {
      t := DrainsSome(cfg, roles, s, acts, k - 1);
      NextIsEarliest(s.waiting, acts, k - 1, s.now);
      WithoutOneMore(s.waiting, acts, k - 1, s.now);
      assert acts[..k][..k - 1] == acts[..k - 1];
      t := DrainsOne(cfg, roles, t, acts[k - 1].item, s.now);
    }
  }

  /** The first part of a turn, as DrainAndSleep is proved to make it, is a run of the protocol from
      every reachable state in which the loop is at the top, failuresLock is free and the queue is
      not shut down: the same queue, and the same items left waiting. */
  lemma DrainIsARun(cfg: Config, roles: Roles, s: Sys, acts: seq<Act>) returns (t: Sys)
    requires Reachable(cfg, roles, s) && LockIsFree(s) && s.loop == AtTop && !s.m.q.shuttingDown
    requires Drained(acts, s.waiting, s.now)
    ensures Reachable(cfg, roles, t) && OnlyLoopMoves(s, t) && t.loop == InSelect && t.now == s.now
    ensures T.View(t) == Replay(cfg, T.View(s), acts) && t.waiting == Later(s.waiting, s.now)
  {
    hide Reachable, M.Enabled, M.Apply;
    StepIsReachable(cfg, roles, s, LoopCheck);
    t := Apply(cfg, s, LoopCheck);
    t := DrainsSome(cfg, roles, t, acts, |acts|);
    assert acts[..|acts|] == acts;
    WithoutAll(s.waiting, acts, s.now);
    StepIsReachable(cfg, roles, t, LoopSleep);
    t := Apply(cfg, t, LoopSleep);
  }

  lemma WithoutAll(before: map<Item, Time>, acts: seq<Act>, now: Time)
    requires Drained(acts, before, now)
    ensures Without(before, acts, |acts|, now) == Later(before, now)
  {
    assert acts[..|acts|] == acts;
    forall x | x in before ensures before[x] > now <==> PassedOn(x, before[x], now) !in acts {
    }
  }

  /** One request is received, at this reading of the clock. */
  lemma ReceivesOne(cfg: Config, roles: Roles, s: Sys, now: Time) returns (t: Sys)
    requires Reachable(cfg, roles, s) && LockIsFree(s) && (s.loop == InSelect || s.loop == InReceive)
    requires s.channel != [] && s.now <= now
    ensures Reachable(cfg, roles, t) && OnlyLoopMoves(s, t) && t.loop == InReceive && t.now == now
    ensures t.channel == s.channel[1..]
    ensures var r := s.channel[0];
            var late := r.readyAt > now;
            var taken := AfterAct(cfg, T.View(s), Received(r.item, r.readyAt));
            && t.waiting == (if late then Earliest(s.waiting, r.item, r.readyAt) else s.waiting)
            && T.View(t) == if late then taken else AfterAct(cfg, taken, PassedOn(r.item, r.readyAt, now))
  {
    hide Reachable, M.Enabled, M.Apply;
    StepIsReachable(cfg, roles, s, Tick(now - s.now));
    t := Apply(cfg, s, Tick(now - s.now));
    StepIsReachable(cfg, roles, t, LoopTake);
    t := Apply(cfg, t, LoopTake);
    hide Enabled, Apply;
    if s.channel[0].readyAt <= now {
      t := LoopPasses(cfg, roles, t);
    }
  }

  ghost predicate Monotone(clock: nat -> Time, start: Time) {
    clock(0) >= start && forall k: nat :: clock(k) <= clock(k + 1)
  }

  lemma ReplayTwo(cfg: Config, s: QS.QueueState, log: seq<Act>, a: Act, b: Act)
    ensures Replay(cfg, s, log + [a]) == AfterAct(cfg, Replay(cfg, s, log), a)
    ensures Replay(cfg, s, log + [a, b]) == AfterAct(cfg, AfterAct(cfg, Replay(cfg, s, log), a), b)
  {
    assert (log + [a])[..|log|] == log;
    assert (log + [a, b])[..|log| + 1] == log + [a];
  }

  lemma {:induction false} ReceivesSome(cfg: Config, roles: Roles, s: Sys, clock: nat -> Time, k: nat) returns (t: Sys)
    requires Reachable(cfg, roles, s) && LockIsFree(s) && s.loop == InSelect
    requires 0 < k <= |s.channel| && Monotone(clock, s.now)
    ensures Reachable(cfg, roles, t) && OnlyLoopMoves(s, t) && t.loop == InReceive && t.now == clock(k - 1)
    ensures t.channel == s.channel[k..]
    ensures var (acts, waiting) := Handling(s.channel, clock, k, s.waiting);
            t.waiting == waiting && T.View(t) == Replay(cfg, T.View(s), acts)
  {
    assert Replay(cfg, T.View(s), []) == T.View(s);
    hide Reachable, Handling, Replay, AfterAct;
    t := s;
    if k > 1 {
      t := ReceivesSome(cfg, roles, s, clock, k - 1);
    }
    HandlesOneMore(s.channel, clock, k - 1, s.waiting);
    var r, before := s.channel[k - 1], t;
    t := ReceivesOne(cfg, roles, before, clock(k - 1));
    var (acts, _) := Handling(s.channel, clock, k - 1, s.waiting);
    var a, b := Received(r.item, r.readyAt), PassedOn(r.item, r.readyAt, clock(k - 1));
    ReplayTwo(cfg, T.View(s), acts, a, b);
  }

  /** The last part of a turn woken by a request, as ReceiveAll is proved to make it, is a run of the
      protocol from every reachable state in which the loop is in its select with failuresLock free
      and something in the channel, the clock being read anew for each request. */
  lemma ReceivingIsARun(cfg: Config, roles: Roles, s: Sys, clock: nat -> Time) returns (t: Sys)
    requires Reachable(cfg, roles, s) && LockIsFree(s) && s.loop == InSelect
    requires s.channel != [] && Monotone(clock, s.now)
    ensures Reachable(cfg, roles, t) && OnlyLoopMoves(s, t) && t.loop == AtTop && t.channel == []
    ensures var (acts, waiting) := Handling(s.channel, clock, |s.channel|, s.waiting);
            t.waiting == waiting && T.View(t) == Replay(cfg, T.View(s), acts)
  {
    hide Reachable, M.Enabled, M.Apply;
    t := ReceivesSome(cfg, roles, s, clock, |s.channel|);
    StepIsReachable(cfg, roles, t, LoopEmpty);
    t := Apply(cfg, t, LoopEmpty);
  }

  /** A whole turn, as WaitingLoop is proved to make its turns, with nobody else at work during its
      sleep: a run of the protocol from the top of the loop back to its top. */
  lemma RoundIsARun(cfg: Config, roles: Roles, s: Sys, round: Round, m: Made) returns (t: Sys)
    requires Reachable(cfg, roles, s) && LockIsFree(s) && s.loop == AtTop
    requires IsTurn(cfg, T.View(s), s.waiting, round, m)
    requires round.now == s.now && round.others == [] && Monotone(round.clock, s.now)
    ensures Reachable(cfg, roles, t) && OnlyLoopMoves(s, t) && t.loop == AtTop
    ensures T.View(t) == Replay(cfg, T.View(s), UpToSleep(m) + m.more) && t.waiting == m.after
  {
    hide Reachable, M.Enabled, M.Apply;
    t := DrainIsARun(cfg, roles, s, m.passed);
    ReplayToSleep(cfg, T.View(s), m.passed, m.now, m.timer, m.others);
    ReplayMore(cfg, T.View(s), UpToSleep(m), m.more);
    assert T.View(t) == Replay(cfg, T.View(s), UpToSleep(m));
    if round.wake.Incoming? && t.channel != [] {
      t := ReceivingIsARun(cfg, roles, t, round.clock);
    } else {
      StepIsReachable(cfg, roles, t, LoopWake);
      t := Apply(cfg, t, LoopWake);
    }
  }
}
