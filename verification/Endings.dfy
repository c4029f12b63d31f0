/** How a turn of the waiting loop begins, and how the loop ends. */
module Endings {
  import opened Lanes
  import D = DelayedItems
  import M = Monitor
  import opened Protocol
  import opened Retries
  import opened Histories

  // ---------- how a turn begins ----------

  /** Timer or heartbeat bring the loop from its select to a drain by the present reading of the
      clock, if the queue is open; nothing else changes on the way. */
  lemma WakeLeadsToDrain(cfg: Config, s: Sys)
    requires s.loop == InSelect && !s.m.q.shuttingDown
    ensures IsRun(cfg, s, [LoopWake, LoopCheck])
    ensures Final(cfg, s, [LoopWake, LoopCheck]) == s.(loop := InDrain(s.now))
  {
    hide M.Enabled, M.Apply;
    var t := Apply(cfg, s, LoopWake);
    StepThenRun(cfg, t, LoopCheck, []);
    StepThenRun(cfg, s, LoopWake, [LoopCheck]);
    assert [LoopWake] + [LoopCheck] == [LoopWake, LoopCheck];
  }

  /** In every run: each turn drains by the reading taken at its beginning, and none begins at a queue
      that is shut down; a request received is delayed if due later than now, and on its way to
      q.add otherwise. */
  lemma TurnsBeginOpen(h: History, k: nat)
    requires h.Valid() && k < |h.es|
    ensures h.es[k] == LoopCheck ==>
      h.Now(k + 1).loop == if h.Now(k).m.q.shuttingDown then Ended else InDrain(h.Now(k).now)
    ensures h.es[k] == LoopTake ==>
      && h.Now(k).channel != []
      && var r, s, t := h.Now(k).channel[0], h.Now(k), h.Now(k + 1);
         if r.readyAt > s.now then t.waiting == D.Earliest(s.waiting, r.item, r.readyAt) && t.loop == InReceive
         else t.waiting == s.waiting && t.loop == ToPass(r.item, r.readyAt, ToReceive)
  {
    Step(h, k);
    hide M.Enabled, M.Apply;
  }

  // ---------- how the loop ends ----------

  lemma StepToEnd(cfg: Config, s: Sys, e: Event, t: Sys)
    requires StepsTo(cfg, s, e, t)
    ensures s.loop == Ended ==> t.loop == Ended
    ensures t.loop == Ended ==> s.loop == Ended || s.m.q.shuttingDown
  {
    hide M.Enabled, M.Apply;
    if !IsLoopStep(e) {
      OthersAtTheLoop(cfg, s, e, t);
      hide StepsTo;
    }
  }

  /** The loop ends only on shutdown, and once it has ended it does nothing more. */
  lemma {:induction false} EndedIsForever(h: History, j: nat, k: nat)
    requires h.Valid() && j <= k <= |h.es|
    ensures h.Now(j).loop == Ended ==> h.Now(k).loop == Ended
    ensures h.Now(k).loop == Ended ==> h.Now(k).m.q.shuttingDown
    decreases k
  {
    if k > 0 {
      EndedIsForever(h, if j < k then j else k - 1, k - 1);
      Step(h, k - 1);
      StepToEnd(h.cfg, h.Now(k - 1), h.es[k - 1], h.Now(k));
      if h.Now(k - 1).m.q.shuttingDown {
        ShutDownStays(h.cfg, h.Now(k - 1), h.es[k - 1], h.Now(k));
      }
    }
  }

  /** The loop is in the first part of a turn, before its select. */
  predicate IsDraining(loop: LoopPc) {
    loop.InDrain? || ((loop.ToPass? || loop.ToPlace?) && loop.back.ToDrain?)
  }

  /** How often the loop goes to sleep from step j to before step k. */
  ghost function Sleeps(h: History, j: nat, k: nat): nat
    requires h.Valid() && j <= k <= |h.es|
    decreases k
  {
    if j == k then 0 else Sleeps(h, j, k - 1) + One(h.es[k - 1] == LoopSleep)
  }

  lemma StepOfALastTurn(cfg: Config, s: Sys, e: Event, t: Sys)
    requires StepsTo(cfg, s, e, t) && s.m.q.shuttingDown
    ensures One(IsDraining(t.loop)) + One(e == LoopSleep) <= One(IsDraining(s.loop))
  {
    hide M.Enabled, M.Apply;
    if !IsLoopStep(e) {
      OthersAtTheLoop(cfg, s, e, t);
      hide StepsTo;
    }
  }

  /** After a shutdown the loop finishes at most the drain it is in: it begins no other, and goes to
      sleep once more at the most. */
  lemma {:induction false} LastTurn(h: History, j: nat, k: nat)
    requires h.Valid() && j <= k <= |h.es| && h.Now(j).m.q.shuttingDown
    ensures h.Now(k).m.q.shuttingDown
    ensures Sleeps(h, j, k) + One(IsDraining(h.Now(k).loop)) <= One(IsDraining(h.Now(j).loop))
    decreases k
  {
    if j < k {
      LastTurn(h, j, k - 1);
      Step(h, k - 1);
      StepOfALastTurn(h.cfg, h.Now(k - 1), h.es[k - 1], h.Now(k));
      ShutDownStays(h.cfg, h.Now(k - 1), h.es[k - 1], h.Now(k));
    }
  }

  /** And it can end at once, from its top and from its select. */
  lemma ShutDownEndsTheLoop(cfg: Config, s: Sys)
    requires s.m.q.shuttingDown && (s.loop == AtTop || s.loop == InSelect)
    ensures var e := if s.loop == AtTop then LoopCheck else LoopStop;
            Enabled(cfg, s, e) && Apply(cfg, s, e) == s.(loop := Ended)
  {
    hide M.Enabled, M.Apply;
  }
}
