/** No retry is forgotten: what is sent to the waiting loop comes back, and an item that failed is
    always somewhere. */
module Returns {
  import opened Lanes
  import M = Monitor
  import opened Protocol
  import opened Retries
  import opened Histories

  // ---------- no delayed add is forgotten ----------

  /** The loop has still to add x, because of a request due at t. */
  ghost predicate Pending(s: Sys, x: Item, t: Time) {
    || (x in s.waiting && s.waiting[x] <= t)
    || (s.loop.ToPass? && s.loop.item == x)
    || (s.loop.ToPlace? && s.loop.item == x)
  }

  /** In step i the loop adds x. */
  ghost predicate AddedAt(h: History, i: nat, x: Item)
    requires h.Valid() && i < |h.es|
  {
    h.es[i].LoopAdd? && h.Now(i).loop.ToPlace? && h.Now(i).loop.item == x
  }

  ghost predicate AddedBetween(h: History, j: nat, k: nat, x: Item)
    requires h.Valid() && k <= |h.es|
  {
    exists i :: j <= i < k && AddedAt(h, i, x)
  }

  lemma LoopKeepsPending(cfg: Config, s: Sys, e: Event, t: Sys, x: Item, u: Time)
    requires StepsTo(cfg, s, e, t) && Pending(s, x, u)
    ensures Pending(t, x, u) || (e.LoopAdd? && s.loop.ToPlace? && s.loop.item == x)
  {
    hide M.Enabled, M.Apply;
  }

  /** Once received, a request stays on its way until its item is added. */
  lemma {:induction false} PendingUntilAdded(h: History, j: nat, k: nat)
    requires h.Valid() && j < k <= |h.es| && h.es[j] == LoopTake
    ensures h.Now(j).channel != []
    ensures var r := h.Now(j).channel[0];
            Pending(h.Now(k), r.item, r.readyAt) || AddedBetween(h, j, k, r.item)
  {
    Step(h, j);
    var r := h.Now(j).channel[0];
    if j + 1 < k {
      PendingUntilAdded(h, j, k - 1);
      Step(h, k - 1);
      if AddedBetween(h, j, k - 1, r.item) {
        var i :| j <= i < k - 1 && AddedAt(h, i, r.item);
        assert AddedBetween(h, j, k, r.item);
      } else {
        LoopKeepsPending(h.cfg, h.Now(k - 1), h.es[k - 1], h.Now(k), r.item, r.readyAt);
        assert Pending(h.Now(k), r.item, r.readyAt) || AddedAt(h, k - 1, r.item);
      }
    }
  }

  /** Whenever the loop goes to sleep, each request it ever received that was due by its reading of
      the clock has been answered by an add since, whatever others did meanwhile. */
  lemma DelayedAddsAreAnswered(h: History, j: nat, k: nat)
    requires h.Valid() && j < k < |h.es| && h.es[j] == LoopTake && h.es[k] == LoopSleep
    ensures h.Now(j).channel != [] && h.Now(k).loop.InDrain?
    ensures var r := h.Now(j).channel[0];
            r.readyAt <= h.Now(k).loop.reading ==> AddedBetween(h, j, k, r.item)
  {
    PendingUntilAdded(h, j, k);
    Step(h, k);
  }

  /** In step m the loop receives a request for x due at t. */
  ghost predicate TakenAt(h: History, m: nat, x: Item, t: Time)
    requires h.Valid() && m < |h.es|
  {
    h.es[m] == LoopTake && h.Now(m).channel != [] && h.Now(m).channel[0] == Request(x, t)
  }

  ghost predicate ReceivedBetween(h: History, j: nat, k: nat, x: Item, t: Time)
    requires h.Valid() && k <= |h.es|
  {
    exists m :: j < m < k && TakenAt(h, m, x, t)
  }

  lemma ChannelKeepsRequests(cfg: Config, s: Sys, e: Event, t: Sys, r: Request)
    requires StepsTo(cfg, s, e, t) && r in s.channel
    ensures r in t.channel || (e == LoopTake && s.channel[0] == r)
  {
    hide M.Enabled, M.Apply;
    if !IsLoopStep(e) {
      OthersAtTheLoop(cfg, s, e, t);
      hide Enabled, Apply;
    }
  }

  /** What is sent stays in the channel until the loop receives it. */
  lemma {:induction false} SentUntilReceived(h: History, j: nat, k: nat, x: Item, t: Time)
    requires h.Valid() && j < k <= |h.es| && SentAt(h, j, x, t)
    ensures Request(x, t) in h.Now(k).channel || ReceivedBetween(h, j, k, x, t)
  {
    Step(h, k - 1);
    if j + 1 == k {
      OthersAtTheLoop(h.cfg, h.Now(j), h.es[j], h.Now(k));
      hide StepsTo;
      assert h.Now(k).channel[|h.Now(j).channel|] == Request(x, t);
    } else {
      SentUntilReceived(h, j, k - 1, x, t);
      if Request(x, t) in h.Now(k - 1).channel {
        ChannelKeepsRequests(h.cfg, h.Now(k - 1), h.es[k - 1], h.Now(k), Request(x, t));
        assert Request(x, t) in h.Now(k).channel || TakenAt(h, k - 1, x, t);
        hide StepsTo, SentAt;
      }
    }
  }

  /** From its sending on, a delayed add is at every point of every run in the channel, with the
      loop, no later than asked, or answered. */
  lemma RequestIsNeverLost(h: History, j: nat, k: nat, x: Item, t: Time)
    requires h.Valid() && j < k <= |h.es| && SentAt(h, j, x, t)
    ensures Request(x, t) in h.Now(k).channel || Pending(h.Now(k), x, t) || AddedBetween(h, j, k, x)
  {
    SentUntilReceived(h, j, k, x, t);
    if ReceivedBetween(h, j, k, x, t) {
      var m :| j < m < k && TakenAt(h, m, x, t);
      PendingUntilAdded(h, m, k);
    }
  }

  /** In step i the loop adds x, by a reading of isFresh made in step r. */
  ghost predicate AddsByReading(h: History, r: nat, i: nat, x: Item)
    requires h.Valid() && r < i < |h.es|
  {
    ReadAt(h, r, i) && AddedAt(h, i, x)
  }

  /** Whenever the loop goes to sleep, a request sent before is in the channel, not due by the loop's
      reading of the clock, or answered by an add whose reading of isFresh came after the sending. */
  lemma RequestIsAnswered(h: History, j: nat, k: nat, x: Item, t: Time) returns (r: nat, i: nat)
    requires h.Valid() && j < k < |h.es| && SentAt(h, j, x, t) && h.es[k] == LoopSleep
    ensures h.Now(k).loop.InDrain?
    ensures Request(x, t) !in h.Now(k).channel && t <= h.Now(k).loop.reading ==>
      j < r < i < k && AddsByReading(h, r, i, x)
  {
    Step(h, k);
    assert h.Now(k).loop.InDrain?;
    hide StepsTo, SentAt, FailuresUpTo;
    r, i := 0, 0;
    if Request(x, t) !in h.Now(k).channel && t <= h.Now(k).loop.reading {
      SentUntilReceived(h, j, k, x, t);
      var m :| j < m < k && TakenAt(h, m, x, t);
      DelayedAddsAreAnswered(h, m, k);
      i :| m <= i < k && AddedAt(h, i, x);
      r := AddFollowsTaking(h, m, i, x, t);
    }
  }

  /** The reading for an add that follows a reception follows it, too. */
  lemma AddFollowsTaking(h: History, m: nat, i: nat, x: Item, t: Time) returns (r: nat)
    requires h.Valid() && m <= i < |h.es| && TakenAt(h, m, x, t) && AddedAt(h, i, x)
    ensures m < r < i && AddsByReading(h, r, i, x)
  {
    var sent;
    sent, r := FreshBudget(h, i);
    assert IsLoopStep(h.es[m]);
  }

  /** A retry sent in step j comes back: whenever the loop goes to sleep later (step k), unless the
      request is still in the channel or not due by the loop's reading, the loop has since read
      isFresh for the item and added it; and if the item was not tried again meanwhile, to the
      lane its failures called for when the retry was sent. */
  lemma RetryIsAnswered(h: History, j: nat, k: nat) returns (r: nat, i: nat)
    requires h.Valid() && j < k < |h.es| && h.es[j].Send? && h.es[k] == LoopSleep
    ensures Works(h.Now(j), h.es[j].c) && h.Now(j).phases[h.es[j].c].Admitted? && h.Now(k).loop.InDrain?
    ensures var s, c := h.Now(j), h.es[j].c;
            var x, due := ItemOf(s, c), s.now + s.phases[c].delay;
            Request(x, due) !in h.Now(k).channel && due <= h.Now(k).loop.reading ==>
              && j < r < i < k && AddsByReading(h, r, i, x)
              && (!s.phases[c].again && Quiet(h, j, k, x) ==>
                    h.Now(i + 1).m.q ==
                      Lanes.Add(h.Now(i).m.q, x, if h.Failures(j, x) <= h.cfg.threshold then Fresh else Staled))
  {
    RetryIsRequested(h, j);
    var s, c := h.Now(j), h.es[j].c;
    var x, due := ItemOf(s, c), s.now + s.phases[c].delay;
    assert SentAt(h, j, x, due);
    r, i := RequestIsAnswered(h, j, k, x, due);
    if Request(x, due) !in h.Now(k).channel && due <= h.Now(k).loop.reading {
      hide SentAt, FailuresUpTo, Lanes.Add;
      var again := RetryComesBack(h, j, i);
      OneReading(h, r, again, i);
    }
  }

  lemma OneReading(h: History, r: nat, q: nat, k: nat)
    requires h.Valid() && r < k <= |h.es| && q < k && ReadAt(h, r, k) && ReadAt(h, q, k)
    ensures r == q
  {
    assert IsLoopStep(h.es[r]) && IsLoopStep(h.es[q]);
  }

  /** Step k receives a request for x. */
  ghost predicate Receives(s: Sys, e: Event, x: Item) {
    e == LoopTake && s.channel != [] && s.channel[0].item == x
  }

  ghost predicate Answers(s: Sys, e: Event, x: Item) {
    e.LoopAdd? && s.loop.ToPlace? && s.loop.item == x
  }

  ghost function Receipts(h: History, k: nat, x: Item): nat
    requires h.Valid() && k <= |h.es|
  {
    if k == 0 then 0 else Receipts(h, k - 1, x) + One(Receives(h.Now(k - 1), h.es[k - 1], x))
  }

  ghost function Answered(h: History, k: nat, x: Item): nat
    requires h.Valid() && k <= |h.es|
  {
    if k == 0 then 0 else Answered(h, k - 1, x) + One(Answers(h.Now(k - 1), h.es[k - 1], x))
  }

  /** How many answers for x the loop has still to give. */
  function Owed(s: Sys, x: Item): nat {
    One(x in s.waiting) + One((s.loop.ToPass? || s.loop.ToPlace?) && s.loop.item == x)
  }

  lemma LoopOwesNoMore(cfg: Config, s: Sys, e: Event, t: Sys, x: Item)
    requires StepsTo(cfg, s, e, t)
    ensures One(Answers(s, e, x)) + Owed(t, x) <= Owed(s, x) + One(Receives(s, e, x))
  {
    hide M.Enabled, M.Apply;
    if !IsLoopStep(e) {
      OthersAtTheLoop(cfg, s, e, t);
      hide Enabled, Apply;
    }
  }

  /** No request is answered twice: in every run the loop adds an item no oftener than it received
      requests for it. */
  lemma {:induction false} AnsweredAtMostOnce(h: History, k: nat, x: Item)
    requires h.Valid() && k <= |h.es|
    ensures Answered(h, k, x) + Owed(h.Now(k), x) <= Receipts(h, k, x)
  {
    if k > 0 {
      AnsweredAtMostOnce(h, k - 1, x);
      Step(h, k - 1);
      LoopOwesNoMore(h.cfg, h.Now(k - 1), h.es[k - 1], h.Now(k), x);
    }
  }

  // ---------- no failing item is lost ----------

  /** This holder has still to make up its mind about the item, or owes it a retry. */
  predicate IsInCharge(phase: Phase) {
    phase.Reconciling? || OwesRetry(phase)
  }

  predicate InLoopsHand(s: Sys, x: Item) {
    (s.loop.ToPass? || s.loop.ToPlace?) && s.loop.item == x
  }

  ghost predicate IsHandled(s: Sys, x: Item) {
    exists c :: M.Holds(s.m, c, x) && c in s.phases && IsInCharge(s.phases[c])
  }

  /** Something is still going to happen to x, or the queue is shutting down. */
  ghost predicate IsSomewhere(s: Sys, x: Item) {
    || s.m.q.shuttingDown
    || x in s.m.q.dirty
    || (exists t :: Request(x, t) in s.channel)
    || x in s.waiting
    || InLoopsHand(s, x)
    || IsHandled(s, x)
  }

  /** Where a step takes nothing away, only the item's holder matters. */
  lemma SomewhereStays(s: Sys, t: Sys, x: Item)
    requires IsSomewhere(s, x)
    requires s.m.q.shuttingDown ==> t.m.q.shuttingDown
    requires x in s.m.q.dirty ==> x in t.m.q.dirty
    requires forall r :: r in s.channel ==> r in t.channel
    requires t.waiting == s.waiting && t.loop == s.loop
    requires IsHandled(s, x) ==> IsSomewhere(t, x)
    ensures IsSomewhere(t, x)
  {
  }

  /** A worker in the middle of its turn. */
  lemma WorkersKeepSomewhere(cfg: Config, s: Sys, e: Event, t: Sys, x: Item)
    requires StepsTo(cfg, s, e, t) && Actor(e).Some? && !e.Get? && !e.Finish? && !e.AddNow?
    requires Count(s.failures, x) > 0 ==> IsSomewhere(s, x)
    ensures Count(t.failures, x) > 0 ==> IsSomewhere(t, x)
  {
    var c := Actor(e).value;
    if e.Fail? && ItemOf(s, c) == x {
      assert M.Holds(t.m, c, x);
    } else if Count(t.failures, x) > 0 {
      if b :| M.Holds(s.m, b, x) && b in s.phases && IsInCharge(s.phases[b]) {
        HolderKeepsSomewhere(cfg, s, e, t, x, b);
      }
      SomewhereStays(s, t, x);
    }
  }

  lemma HolderKeepsSomewhere(cfg: Config, s: Sys, e: Event, t: Sys, x: Item, b: Id)
    requires StepsTo(cfg, s, e, t) && Actor(e).Some? && !e.Get? && !e.Finish? && !e.AddNow?
    requires M.Holds(s.m, b, x) && b in s.phases && IsInCharge(s.phases[b]) && Count(t.failures, x) > 0
    ensures IsSomewhere(t, x)
  {
    assert M.Holds(t.m, b, x);
    if e.Send? && e.c == b {
      assert t.channel[|s.channel|] == Request(x, s.now + s.phases[b].delay);
    }
  }

  /** Get makes its caller answerable for what it takes; AddNow leaves the item dirty; the item of a
      Done is not in charge of anybody by then. */
  lemma MonitorStepsKeepSomewhere(cfg: Config, s: Sys, e: Event, t: Sys, x: Item)
    requires Inv(cfg, s) && StepsTo(cfg, s, e, t) && (e.Get? || e.Finish? || e.AddNow? || e.Env?)
    requires Count(s.failures, x) > 0 ==> IsSomewhere(s, x)
    ensures Count(t.failures, x) > 0 ==> IsSomewhere(t, x)
  {
    if Count(t.failures, x) > 0 {
      if e.Get? && M.CanTake(s.m, e.c) && t.m.pcs[e.c].item == x {
        assert M.Holds(t.m, e.c, x);
      } else {
        MonitorKeepsItems(cfg, s, e, t, x);
        if s.m.q.shuttingDown {
          ShutDownStays(cfg, s, e, t);
        }
        SomewhereStays(s, t, x);
      }
    }
  }

  lemma DirtStays(p: M.Policy, s: M.State, e: M.Event, x: Item)
    requires M.Enabled(p, s, e) && x in s.q.dirty
    requires e.Get? && M.CanTake(s, e.c) ==> M.Apply(p, s, e).pcs[e.c] != M.Holding(x)
    ensures x in M.Apply(p, s, e).q.dirty
  {
  }

  lemma MonitorKeepsItems(cfg: Config, s: Sys, e: Event, t: Sys, x: Item)
    requires Inv(cfg, s) && StepsTo(cfg, s, e, t) && (e.Get? || e.Finish? || e.AddNow? || e.Env?)
    requires e.Get? && M.CanTake(s.m, e.c) ==> e.c in t.m.pcs && t.m.pcs[e.c] != M.Holding(x)
    ensures x in s.m.q.dirty ==> x in t.m.q.dirty
    ensures IsHandled(s, x) ==> IsSomewhere(t, x)
  {
    StepAtTheMonitor(cfg, s, e);
    if x in s.m.q.dirty {
      DirtStays(cfg.policy, s.m, Abstract(cfg, s, e)[0], x);
    }
    if b :| M.Holds(s.m, b, x) && b in s.phases && IsInCharge(s.phases[b]) {
      HolderOutlivesMonitorStep(cfg, s, e, t, x, b);
    }
  }

  lemma HolderOutlivesMonitorStep(cfg: Config, s: Sys, e: Event, t: Sys, x: Item, b: Id)
    requires Inv(cfg, s) && StepsTo(cfg, s, e, t) && (e.Get? || e.Finish? || e.AddNow? || e.Env?)
    requires M.Holds(s.m, b, x) && b in s.phases && IsInCharge(s.phases[b])
    ensures IsSomewhere(t, x)
  {
    if e.AddNow? && e.c == b {
      WorkersFillNoLane(cfg, s, e, t);
      HeldStaysHeld(cfg, s, e, t, b);
    } else {
      assert Actor(e) != Some(b);
      HeldStaysHeld(cfg, s, e, t, b);
      OthersKeepPhase(cfg, s, e, t, b);
      hide StepsTo, Inv;
      assert M.Holds(t.m, b, x);
    }
  }

  lemma LoopKeepsSomewhere(cfg: Config, s: Sys, e: Event, t: Sys, x: Item)
    requires StepsTo(cfg, s, e, t) && (e.Tick? || IsLoopStep(e)) && !e.LoopAdd? && !e.LoopTake? && IsSomewhere(s, x)
    ensures IsSomewhere(t, x)
  {
    hide M.Enabled, M.Apply;
    if b :| M.Holds(s.m, b, x) && b in s.phases && IsInCharge(s.phases[b]) {
      assert M.Holds(t.m, b, x);
    }
  }

  lemma LoopTakeKeepsSomewhere(cfg: Config, s: Sys, e: Event, t: Sys, x: Item)
    requires StepsTo(cfg, s, e, t) && e.LoopTake? && IsSomewhere(s, x)
    ensures IsSomewhere(t, x)
  {
    hide M.Enabled, M.Apply;
    if b :| M.Holds(s.m, b, x) && b in s.phases && IsInCharge(s.phases[b]) {
      assert M.Holds(t.m, b, x);
    }
  }

  lemma LoopAddKeepsSomewhere(cfg: Config, s: Sys, e: Event, t: Sys, x: Item)
    requires StepsTo(cfg, s, e, t) && e.LoopAdd? && IsSomewhere(s, x)
    ensures IsSomewhere(t, x)
  {
    if b :| M.Holds(s.m, b, x) && b in s.phases && IsInCharge(s.phases[b]) {
      assert M.Holds(t.m, b, x);
    }
  }

  lemma StepKeepsSomewhere(cfg: Config, s: Sys, e: Event, t: Sys, x: Item)
    requires Inv(cfg, s) && StepsTo(cfg, s, e, t)
    requires Count(s.failures, x) > 0 ==> IsSomewhere(s, x)
    ensures Count(t.failures, x) > 0 ==> IsSomewhere(t, x)
  {
    if e.Get? || e.Finish? || e.AddNow? || e.Env? {
      MonitorStepsKeepSomewhere(cfg, s, e, t, x);
    } else if Actor(e).Some? {
      WorkersKeepSomewhere(cfg, s, e, t, x);
    } else {
      assert t.failures == s.failures;
      if IsSomewhere(s, x) {
        if e.LoopAdd? {
          LoopAddKeepsSomewhere(cfg, s, e, t, x);
        } else if e.LoopTake? {
          LoopTakeKeepsSomewhere(cfg, s, e, t, x);
        } else {
          LoopKeepsSomewhere(cfg, s, e, t, x);
        }
      }
    }
  }

  lemma {:induction false} AlwaysSomewhere(h: History, k: nat, x: Item)
    requires h.Valid() && k <= |h.es|
    ensures Count(h.Now(k).failures, x) > 0 ==> IsSomewhere(h.Now(k), x)
  {
    if k > 0 {
      AlwaysSomewhere(h, k - 1, x);
      Step(h, k - 1);
      InvAt(h.cfg, h.roles, h.es, k - 1);
      StepKeepsSomewhere(h.cfg, h.Now(k - 1), h.es[k - 1], h.Now(k), x);
    }
  }

  /** In every state of every run an item with failures since its last success is dirty, on its way
      through channel and waiting loop, or with a worker that has still to decide about it or owes
      it a retry; unless the queue is shutting down. */
  lemma FailingItemsAreSomewhere(h: History, k: nat, x: Item)
    requires h.Valid() && k <= |h.es|
    ensures h.Failures(k, x) > 0 ==> IsSomewhere(h.Now(k), x)
  {
    FailuresAreCounted(h.cfg, h.roles, h.es, k, x);
    AlwaysSomewhere(h, k, x);
  }
}
