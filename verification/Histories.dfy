/** Whole runs of workers and waiting loop from the start: what becomes of each delayed retry, and
    which lane it comes back to. */
module Histories {
  import opened Lanes
  import M = Monitor
  import opened Protocol
  import opened Retries

  datatype History = History(cfg: Config, roles: Roles, es: seq<Event>)
  {
    ghost predicate Valid() {
      IsRun(cfg, Init(roles), es)
    }

    /** The state before step k. */
    ghost function Now(k: nat): Sys
      requires Valid() && k <= |es|
    {
      At(cfg, Init(roles), es, k)
    }

    /** The failures of x since its last success, before step k. */
    ghost function Failures(k: nat, x: Item): nat
      requires Valid() && k <= |es|
    {
      FailuresUpTo(cfg, Init(roles), es, k, x)
    }
  }

  lemma Step(h: History, k: nat)
    requires h.Valid() && k < |h.es|
    ensures StepsTo(h.cfg, h.Now(k), h.es[k], h.Now(k + 1))
  {
    AtStep(h.cfg, Init(h.roles), h.es, k);
  }

  // ---------- where a delayed add comes from ----------

  /** Step j hands x to the waiting loop, to be added at time t. */
  ghost predicate SentAt(h: History, j: nat, x: Item, t: Time)
    requires h.Valid() && j < |h.es|
  {
    var s, e := h.Now(j), h.es[j];
    && e.Send? && Works(s, e.c) && s.phases[e.c].Admitted?
    && ItemOf(s, e.c) == x && t == s.now + s.phases[e.c].delay
  }

  ghost predicate Sent(h: History, k: nat, x: Item, t: Time)
    requires h.Valid() && k <= |h.es|
  {
    exists j :: 0 <= j < k && SentAt(h, j, x, t)
  }

  /** Before step k, the last thing the loop did was to call isFresh, in step r. */
  ghost predicate ReadAt(h: History, r: nat, k: nat)
    requires h.Valid() && r < k <= |h.es|
  {
    h.es[r] == LoopRead && forall i :: r < i < k ==> !IsLoopStep(h.es[i])
  }

  /** What the loop is about to place was read in step r. */
  ghost predicate PlacesWhatItRead(h: History, r: nat, k: nat)
    requires h.Valid() && r < k <= |h.es|
  {
    && ReadAt(h, r, k)
    && var l, m := h.Now(k).loop, h.Now(r).loop;
       && l.ToPlace? && m.ToPass? && l.item == m.item && l.readyAt == m.readyAt
       && l.lane == LaneFor(h.cfg, Count(h.Now(r).failures, l.item))
  }

  /** x is due at t in the channel or among the delayed items. */
  ghost predicate Delayed(s: Sys, x: Item, t: Time) {
    Request(x, t) in s.channel || (x in s.waiting && s.waiting[x] == t)
  }

  predicate BackInTime(back: Back, now: Time) {
    back.ToDrain? ==> back.reading <= now
  }

  predicate ReadingIsPast(s: Sys) {
    && (s.loop.InDrain? ==> s.loop.reading <= s.now)
    && (s.loop.ToPass? ==> BackInTime(s.loop.back, s.now))
    && (s.loop.ToPlace? ==> BackInTime(s.loop.back, s.now))
  }

  /** Everything on its way to a delayed add was sent by a worker, for that time; what the loop has
      taken out is due; and the lane it is about to use is the one it just read. */
  ghost predicate Traced(h: History, k: nat)
    requires h.Valid() && k <= |h.es|
  {
    var s := h.Now(k);
    && ReadingIsPast(s)
    && (forall x, t :: Delayed(s, x, t) ==> Sent(h, k, x, t))
    && (s.loop.ToPass? ==> Sent(h, k, s.loop.item, s.loop.readyAt) && s.loop.readyAt <= s.now)
    && (s.loop.ToPlace? ==> exists r :: 0 <= r < k && PlacesWhatItRead(h, r, k))
  }

  lemma StillSent(h: History, k: nat)
    requires h.Valid() && k < |h.es|
    ensures forall x, t :: Sent(h, k, x, t) ==> Sent(h, k + 1, x, t)
  {
  }

  lemma OthersAtTheLoop(cfg: Config, s: Sys, e: Event, t: Sys)
    requires StepsTo(cfg, s, e, t) && !IsLoopStep(e)
    ensures t.waiting == s.waiting && t.loop == s.loop && t.now >= s.now
    ensures !e.Send? ==> t.channel == s.channel
    ensures e.Send? ==>
      && Works(s, e.c) && s.phases[e.c].Admitted?
      && t.channel == s.channel + [Request(ItemOf(s, e.c), s.now + s.phases[e.c].delay)]
  {
    hide M.Enabled, M.Apply;
  }

  lemma OthersKeepTraced(h: History, k: nat)
    requires h.Valid() && k < |h.es| && Traced(h, k) && !IsLoopStep(h.es[k])
    ensures Traced(h, k + 1)
  {
    Step(h, k);
    StillSent(h, k);
    var s, t, e := h.Now(k), h.Now(k + 1), h.es[k];
    OthersAtTheLoop(h.cfg, s, e, t);
    hide StepsTo;
    forall x, u | Delayed(t, x, u) ensures Sent(h, k + 1, x, u) {
      if Delayed(s, x, u) {
        assert Sent(h, k, x, u);
      } else {
        assert SentAt(h, k, x, u);
      }
    }
    if s.loop.ToPlace? {
      var r :| 0 <= r < k && PlacesWhatItRead(h, r, k);
      assert PlacesWhatItRead(h, r, k + 1);
    }
  }

  /** The loop's own steps only move what is delayed along. */
  lemma LoopMovesAlong(cfg: Config, s: Sys, e: Event, t: Sys)
    requires StepsTo(cfg, s, e, t) && IsLoopStep(e) && ReadingIsPast(s)
    ensures t.now == s.now && ReadingIsPast(t)
    ensures forall x, u :: Delayed(t, x, u) ==> Delayed(s, x, u)
    ensures t.loop.ToPass? ==> Delayed(s, t.loop.item, t.loop.readyAt) && t.loop.readyAt <= s.now
    ensures t.loop.ToPlace? ==>
      && e == LoopRead && s.loop == ToPass(t.loop.item, t.loop.readyAt, t.loop.back)
      && t.loop.lane == LaneFor(cfg, Count(s.failures, t.loop.item))
  {
    hide M.Enabled, M.Apply;
  }

  lemma LoopKeepsTraced(h: History, k: nat)
    requires h.Valid() && k < |h.es| && Traced(h, k) && IsLoopStep(h.es[k])
    ensures Traced(h, k + 1)
  {
    Step(h, k);
    StillSent(h, k);
    var t := h.Now(k + 1);
    LoopMovesAlong(h.cfg, h.Now(k), h.es[k], t);
    hide StepsTo;
    if t.loop.ToPlace? {
      assert PlacesWhatItRead(h, k, k + 1);
    }
  }

  lemma {:induction false} AlwaysTraced(h: History, k: nat)
    requires h.Valid() && k <= |h.es|
    ensures Traced(h, k)
  {
    if k > 0 {
      AlwaysTraced(h, k - 1);
      if IsLoopStep(h.es[k - 1]) {
        LoopKeepsTraced(h, k - 1);
      } else {
        OthersKeepTraced(h, k - 1);
      }
    }
  }

  // ---------- the fresh budget ----------

  /** The waiting loop adds nothing unasked, nothing early, and to the lane of the budget: each of
      its adds answers a request sent before, whose time had come when isFresh was called for it,
      and goes to the fresh lane exactly when the item's failures since its last success were at
      that call within the threshold. */
  lemma FreshBudget(h: History, k: nat) returns (j: nat, r: nat)
    requires h.Valid() && k < |h.es| && h.es[k].LoopAdd?
    ensures j < r < k && h.Now(k).loop.ToPlace?
    ensures var x, t := h.Now(k).loop.item, h.Now(k).loop.readyAt;
            SentAt(h, j, x, t) && t <= h.Now(r).now
    ensures ReadAt(h, r, k)
    ensures var x := h.Now(k).loop.item;
            var lane := if h.Failures(r, x) <= h.cfg.threshold then Fresh else Staled;
            h.Now(k + 1).m.q == Lanes.Add(h.Now(k).m.q, x, lane)
  {
    Step(h, k);
    AlwaysTraced(h, k);
    r :| 0 <= r < k && PlacesWhatItRead(h, r, k);
    AlwaysTraced(h, r);
    var x, t := h.Now(k).loop.item, h.Now(k).loop.readyAt;
    assert Sent(h, r, x, t);
    j :| 0 <= j < r && SentAt(h, j, x, t);
    FailuresAreCounted(h.cfg, h.roles, h.es, r, x);
  }

  /** The delay of each rate limited retry, and what the worker of the item is told: the request
      is due after the fast delay while the failures are within the threshold, else the slow one. */
  lemma RetryIsRequested(h: History, j: nat)
    requires h.Valid() && j < |h.es| && h.es[j].Send?
    ensures var s, c := h.Now(j), h.es[j].c;
            && Works(s, c) && s.phases[c].Admitted?
            && (!s.phases[c].again ==>
                  var x := ItemOf(s, c);
                  var n := h.Failures(j, x);
                  && n >= 1
                  && SentAt(h, j, x, s.now + if n <= h.cfg.threshold then h.cfg.fast else h.cfg.slow)
                  && h.Now(j + 1).channel ==
                       s.channel + [Request(x, s.now + if n <= h.cfg.threshold then h.cfg.fast else h.cfg.slow)])
  {
    Step(h, j);
    var s, c := h.Now(j), h.es[j].c;
    if !s.phases[c].again {
      InvAt(h.cfg, h.roles, h.es, j);
      AdmittedDelay(h.cfg, s, c);
      FailuresAreCounted(h.cfg, h.roles, h.es, j, ItemOf(s, c));
    }
  }

  /** Step i changes the failures of x. */
  ghost predicate Counts(h: History, i: nat, x: Item)
    requires h.Valid() && i < |h.es|
  {
    var s, e := h.Now(i), h.es[i];
    (e.Fail? || e.Forget?) && Works(s, e.c) && ItemOf(s, e.c) == x
  }

  /** x is neither failed on nor succeeded on in the steps from j to before r. */
  ghost predicate Quiet(h: History, j: nat, r: nat, x: Item)
    requires h.Valid() && j <= r <= |h.es|
  {
    forall i :: j <= i < r ==> !Counts(h, i, x)
  }

  lemma {:induction false} QuietKeepsFailures(h: History, j: nat, r: nat, x: Item)
    requires h.Valid() && j <= r <= |h.es|
    requires Quiet(h, j, r, x)
    ensures h.Failures(r, x) == h.Failures(j, x)
    decreases r
  {
    if j < r {
      QuietKeepsFailures(h, j, r - 1, x);
      Step(h, r - 1);
      assert !Counts(h, r - 1, x);
    }
  }

  /** The budget of retries, whole, for every retry sent (step j) and every later add of its item by
      the waiting loop (step k, its reading of isFresh in step r): if the item is not tried again
      between the sending and the reading, the retry was sent for the fast delay and the item
      re-enters the fresh lane when it is one of the first `threshold` failures since the last
      success, and it was sent for the slow delay and the item re-enters the staled lane otherwise.
      What the loop adds is due. */
  lemma RetryComesBack(h: History, j: nat, k: nat) returns (r: nat)
    requires h.Valid() && j < k < |h.es| && h.es[j].Send? && h.es[k].LoopAdd?
    ensures r < k && ReadAt(h, r, k) && h.Now(k).loop.ToPlace? && h.Now(k).loop.readyAt <= h.Now(r).now
    ensures Works(h.Now(j), h.es[j].c) && h.Now(j).phases[h.es[j].c].Admitted?
    ensures var s, c := h.Now(j), h.es[j].c;
            var x := ItemOf(s, c);
            h.Now(k).loop.item == x && j < r && !s.phases[c].again && Quiet(h, j, r, x) ==>
              var n := h.Failures(j, x);
              && n >= 1
              && SentAt(h, j, x, s.now + if n <= h.cfg.threshold then h.cfg.fast else h.cfg.slow)
              && h.Now(k + 1).m.q == Lanes.Add(h.Now(k).m.q, x, if n <= h.cfg.threshold then Fresh else Staled)
  {
    var sent;
    sent, r := FreshBudget(h, k);
    RetryIsRequested(h, j);
    var x := ItemOf(h.Now(j), h.es[j].c);
    if j < r && Quiet(h, j, r, x) {
      QuietKeepsFailures(h, j, r, x);
    }
  }

  // ---------- every way into a lane ----------

  ghost predicate Enters(s: Queue, t: Queue, x: Item, lane: Lane) {
    t.Contents(lane) == s.Contents(lane) + [x]
  }

  /** The three ways for x to enter a lane in step k: an outsider's Add, always fresh; the waiting
      loop, into the lane of the budget; Done, into the other one. */
  ghost predicate EntersBy(h: History, k: nat, x: Item, lane: Lane)
    requires h.Valid() && k < |h.es|
  {
    var s, e := h.Now(k), h.es[k];
    || (e.Env? && e.e.Add? && e.e.item == x && lane == Fresh)
    || (e.LoopAdd? &&
        exists r :: 0 <= r < k && ReadAt(h, r, k) && (lane == Fresh <==> h.Failures(r, x) <= h.cfg.threshold))
    || (e.Finish? && Works(s, e.c) && ItemOf(s, e.c) == x && (lane == Staled <==> h.Failures(k, x) <= h.cfg.threshold))
  }

  /** A worker adds only the item it holds, which marks it dirty and changes no lane. */
  lemma WorkersFillNoLane(cfg: Config, s: Sys, e: Event, t: Sys)
    requires Inv(cfg, s) && StepsTo(cfg, s, e, t) && e.AddNow?
    ensures Works(s, e.c)
    ensures var x := ItemOf(s, e.c);
            t.m.q == if s.m.q.shuttingDown then s.m.q else s.m.q.(dirty := s.m.q.dirty + {x})
  {
    assert M.Holds(s.m, e.c, ItemOf(s, e.c));
  }

  lemma OnlyTheseFillLanes(cfg: Config, s: Sys, e: Event, t: Sys, lane: Lane)
    requires StepsTo(cfg, s, e, t) && |t.m.q.Contents(lane)| > |s.m.q.Contents(lane)|
    ensures (e.Env? && e.e.Add?) || e.LoopAdd? || e.Finish? || e.AddNow?
  {
  }

  lemma FinishFillsTheOtherLane(h: History, k: nat, lane: Lane)
    requires h.Valid() && k < |h.es| && h.es[k].Finish?
    requires |h.Now(k + 1).m.q.Contents(lane)| > |h.Now(k).m.q.Contents(lane)|
    ensures Works(h.Now(k), h.es[k].c)
    ensures var x := ItemOf(h.Now(k), h.es[k].c);
            Enters(h.Now(k).m.q, h.Now(k + 1).m.q, x, lane) && EntersBy(h, k, x, lane)
  {
    Step(h, k);
    var s, e := h.Now(k), h.es[k];
    var x := ItemOf(s, e.c);
    InvAt(h.cfg, h.roles, h.es, k);
    assert M.Holds(s.m, e.c, x);
    NotBetween(s, e.c, x);
    FailuresAreCounted(h.cfg, h.roles, h.es, k, x);
  }

  /** Nothing else fills a lane, in any run: whatever enters a lane enters at its end and in one
      of the three ways. */
  lemma EveryWayIntoALane(h: History, k: nat, lane: Lane) returns (x: Item)
    requires h.Valid() && k < |h.es|
    requires |h.Now(k + 1).m.q.Contents(lane)| > |h.Now(k).m.q.Contents(lane)|
    ensures Enters(h.Now(k).m.q, h.Now(k + 1).m.q, x, lane) && EntersBy(h, k, x, lane)
  {
    Step(h, k);
    var s, e, t := h.Now(k), h.es[k], h.Now(k + 1);
    OnlyTheseFillLanes(h.cfg, s, e, t, lane);
    if e.Env? {
      x := e.e.item;
    } else if e.LoopAdd? {
      var j, r := FreshBudget(h, k);
      x := s.loop.item;
    } else if e.AddNow? {
      InvAt(h.cfg, h.roles, h.es, k);
      WorkersFillNoLane(h.cfg, s, e, t);
      assert false;
    } else {
      FinishFillsTheOtherLane(h, k, lane);
      x := ItemOf(s, e.c);
    }
  }
}
