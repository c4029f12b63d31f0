/** ShutDownWithDrain: what its return means, and when it returns at all. */
module Drain {
  import opened Lanes
  import opened Monitor
  import A = Accounting

  /** ShutDownWithDrain returns only from a queue that is shut down and in which nobody holds an
      item. That is less than the documentation says: what is dirty then waits in the lanes.
      ReturnsWithWorkLeftIff says when that can be. */
  lemma WhatReturningMeans(p: Policy, roles: map<Id, Role>, s: State, d: Id)
    requires Reachable(p, roles, s) && Enabled(p, s, CheckDrained(d))
    ensures var t := Apply(p, s, CheckDrained(d));
            Is(t, d, Exited) ==>
              && t.q.shuttingDown
              && (forall c :: c in t.pcs ==> !t.pcs[c].Holding?)
              && (t.q.dirty == {} <==> t.q.Len() == 0)
  {
    ReachableIsSafe(p, roles, s);
    var t := Apply(p, s, CheckDrained(d));
    StepKeepsSafe(p, s, CheckDrained(d));
    if Is(t, d, Exited) {
      assert forall c, x :: Holds(t, c, x) ==> x in t.q.processing;
      assert forall c :: c in t.pcs && t.pcs[c].Holding? ==> Holds(t, c, t.pcs[c].item);
      if t.q.Len() > 0 {
        assert t.q.IsQueued(if |t.q.queueFresh| > 0 then t.q.queueFresh[0] else t.q.queueStaled[0]);
      } else {
        assert forall x :: !t.q.IsQueued(x);
      }
    }
  }

  /** An accepted item nobody has picked up yet does not keep ShutDownWithDrain from returning. */
  lemma ReturnsBeforeWaitingItems(p: Policy, roles: map<Id, Role>, d: Id, x: Item) returns (s: State)
    requires HasRole(Init(roles), d, Drainer)
    ensures Reachable(p, roles, s) && Is(s, d, Exited) && s.q.queueFresh == [x]
  {
    InitIsReachable(p, roles);
    var s1 := Apply(p, Init(roles), Add(x, Fresh, None));
    StepIsReachable(p, roles, Init(roles), Add(x, Fresh, None));
    var s2 := Apply(p, s1, BeginDrain(d));
    StepIsReachable(p, roles, s1, BeginDrain(d));
    s := Apply(p, s2, CheckDrained(d));
    StepIsReachable(p, roles, s2, CheckDrained(d));
  }

  /** A held item can be finished, and a drainer about to check does not mind. */
  lemma OneHolderFinishes(p: Policy, s: State, d: Id, x: Item) returns (e: Event)
    requires Safe(s) && s.q.shuttingDown && HasRole(s, d, Drainer) && Is(s, d, Checking) && x in s.q.processing
    ensures e.Done? && Enabled(p, s, e)
    ensures var t := Apply(p, s, e);
            && Safe(t) && t.q.shuttingDown && HasRole(t, d, Drainer) && Is(t, d, Checking)
            && t.q.processing == s.q.processing - {x} && t.q.dirty == s.q.dirty
  {
    var c :| Holds(s, c, x);
    if AnyParked(s.pcs) {
      var b :| b in s.pcs && s.pcs[b] == Parked;
      e := Done(c, Fresh, Some(b));
    } else {
      e := Done(c, Fresh, None);
    }
    StepKeepsSafe(p, s, e);
  }

  /** The holders call Done one after the other, whatever became dirty again. */
  lemma {:induction false} FinishHolders(p: Policy, s: State, d: Id) returns (es: seq<Event>)
    requires Safe(s) && s.q.shuttingDown && HasRole(s, d, Drainer) && Is(s, d, Checking)
    ensures IsRun(p, s, es)
    ensures var t := Final(p, s, es);
            t.q.processing == {} && t.q.dirty == s.q.dirty && HasRole(t, d, Drainer) && Is(t, d, Checking)
    decreases |s.q.processing|
  {
    if s.q.processing == {} {
      es := [];
    } else {
      var x :| x in s.q.processing;
      var e := OneHolderFinishes(p, s, d, x);
      hide Safe, Enabled, Apply;
      es := FinishHolders(p, Apply(p, s, e), d);
      StepThenRun(p, s, e, es);
      es := [e] + es;
    }
  }

  /** The documentation says that ShutDownWithDrain returns when everything existing is finished.
      Exactly then can it be relied on, and only then: when nothing is dirty as it is called. */
  lemma ReturnsWithWorkLeftIff(p: Policy, s: State, d: Id)
    requires Safe(s) && Enabled(p, s, BeginDrain(d))
    ensures var t := Apply(p, s, BeginDrain(d));
            (exists es :: IsRun(p, t, es) && Is(Final(p, t, es), d, Exited) && Final(p, t, es).q.dirty != {})
            <==> s.q.dirty != {}
  {
    var t := Apply(p, s, BeginDrain(d));
    StepKeepsSafe(p, s, BeginDrain(d));
    if s.q.dirty != {} {
      var es := FinishHolders(p, t, d);
      RunThenStep(p, t, es, CheckDrained(d));
      var all := es + [CheckDrained(d)];
      assert IsRun(p, t, all) && Is(Final(p, t, all), d, Exited) && Final(p, t, all).q.dirty != {};
    } else {
      forall es | IsRun(p, t, es) ensures Final(p, t, es).q.dirty == {} {
        A.ShutDownBoundsTheWork(p, t, es);
      }
    }
  }

  /** A ShutDown after the first one does nothing, so it does not end a draining shutdown, as its
      comment says it does: it neither wakes the drainer nor makes a later wake-up possible. */
  lemma SecondShutDownForcesNothing(s: State, d: Id)
    requires Safe(s) && s.q.shuttingDown && HasRole(s, d, Drainer) && Is(s, d, Parked)
    ensures Apply(AsWritten, s, ShutDown) == s
    ensures !SomeHeldItemIsDirty(s) ==>
      forall es :: IsRun(AsWritten, s, [Event.ShutDown] + es) ==>
        Is(Final(AsWritten, s, [Event.ShutDown] + es), d, Parked)
  {
    if !SomeHeldItemIsDirty(s) {
      forall es | IsRun(AsWritten, s, [Event.ShutDown] + es)
        ensures Is(Final(AsWritten, s, [Event.ShutDown] + es), d, Parked)
      {
        DoomIsForever(s, [Event.ShutDown] + es, d);
      }
    }
  }

  // ---------- the code as written: when is a sleeping drainer lost? ----------

  /** The guard of Done's only Signal, over all items being processed. */
  ghost predicate SomeHeldItemIsDirty(s: State) {
    exists x :: x in s.q.processing && x in s.q.dirty
  }

  lemma StepKeepsDoom(s: State, e: Event, d: Id)
    requires Safe(s) && s.q.shuttingDown && Is(s, d, Parked) && !SomeHeldItemIsDirty(s)
    requires Enabled(AsWritten, s, e)
    ensures var t := Apply(AsWritten, s, e);
            t.q.shuttingDown && Is(t, d, Parked) && !SomeHeldItemIsDirty(t)
  {
    var t := Apply(AsWritten, s, e);
    if e.Get? && CanTake(s, e.c) {
      TakeKeepsValid(s.q, s.roles[e.c] == FreshGetter);
    }
    if e.Done? {
      assert Holds(s, e.c, s.pcs[e.c].item);
    }
    assert forall x :: x in t.q.processing && x in t.q.dirty ==> x in s.q.processing && x in s.q.dirty;
  }

  lemma {:induction false} DoomIsForever(s: State, es: seq<Event>, d: Id)
    requires Safe(s) && s.q.shuttingDown && Is(s, d, Parked) && !SomeHeldItemIsDirty(s)
    requires IsRun(AsWritten, s, es)
    ensures Is(Final(AsWritten, s, es), d, Parked)
    decreases |es|
  {
    if es != [] {
      StepKeepsSafe(AsWritten, s, es[0]);
      StepKeepsDoom(s, es[0], d);
      DoomIsForever(Apply(AsWritten, s, es[0]), es[1..], d);
    }
  }

  /** A parked drainer can be woken again exactly when some item being processed has become dirty
      meanwhile. Otherwise no continuation whatever wakes it, and ShutDownWithDrain never returns. */
  lemma DrainerIsWokenIff(s: State, d: Id)
    requires Safe(s) && HasRole(s, d, Drainer) && Is(s, d, Parked)
    ensures (exists es :: IsRun(AsWritten, s, es) && !Is(Final(AsWritten, s, es), d, Parked))
       <==> SomeHeldItemIsDirty(s)
  {
    if SomeHeldItemIsDirty(s) {
      var x :| x in s.q.processing && x in s.q.dirty;
      var c :| Holds(s, c, x);
      var e := Done(c, Staled, Some(d));
      assert IsRun(AsWritten, s, []);
      RunThenStep(AsWritten, s, [], e);
      assert !Is(Final(AsWritten, s, [] + [e]), d, Parked);
    } else {
      forall es | IsRun(AsWritten, s, es) ensures Is(Final(AsWritten, s, es), d, Parked) {
        DoomIsForever(s, es, d);
      }
    }
  }

  // ---------- which Done would do ----------

  /** Everything in hand is finished, and ShutDownWithDrain sleeps on. */
  ghost predicate Stuck(s: State) {
    s.q.processing == {} && exists d :: HasRole(s, d, Drainer) && Is(s, d, Parked)
  }

  ghost predicate AtMostOneDrainer(roles: map<Id, Role>) {
    forall c, d :: c in roles && d in roles && roles[c] == Drainer && roles[d] == Drainer ==> c == d
  }

  /** The policies and callers for which drainers never sleep in vain. */
  ghost predicate Wakes(p: Policy, roles: map<Id, Role>) {
    || (forall c :: c in roles ==> roles[c] != Drainer)
    || p == BroadcastOnDone
    || (p == SignalOnDone && AtMostOneDrainer(roles))
  }

  lemma StepKeepsUnstuck(p: Policy, s: State, e: Event)
    requires Safe(s) && Wakes(p, s.roles) && Enabled(p, s, e) && !Stuck(s)
    ensures !Stuck(Apply(p, s, e))
  {
    var t := Apply(p, s, e);
    if d :| t.q.processing == {} && HasRole(t, d, Drainer) && Is(t, d, Parked) {
      if e.Done? {
        DoneWakesDrainer(p, s, e, d);
      } else if e.CheckDrained? && e.c == d {
        assert false;
      } else {
        assert HasRole(s, d, Drainer) && Is(s, d, Parked);
      }
    }
  }

  /** After shutdown only drainers sleep, so with one of them Signal cannot wake anybody else. */
  lemma DoneWakesDrainer(p: Policy, s: State, e: Event, d: Id)
    requires Safe(s) && Wakes(p, s.roles) && e.Done? && Enabled(p, s, e)
    requires HasRole(s, d, Drainer)
    ensures !Is(Apply(p, s, e), d, Parked)
  {
  }

  lemma WakesNeverStuck(p: Policy, roles: map<Id, Role>, s: State)
    requires Wakes(p, roles) && Reachable(p, roles, s)
    ensures !Stuck(s)
  {
    var es :| IsRun(p, Init(roles), es) && Final(p, Init(roles), es) == s;
    var inv := t => Safe(t) && t.roles == roles && !Stuck(t);
    forall t, e | inv(t) && Enabled(p, t, e) ensures inv(Apply(p, t, e)) {
      StepKeepsSafe(p, t, e);
      StepKeepsUnstuck(p, t, e);
    }
    Induct(p, inv, Init(roles), es);
  }

  /** Where the drainer has got to in its own steps: woken, it checks again; checking, it returns. */
  function DrainerReturns(s: State, d: Id): seq<Event> {
    if Is(s, d, Woken) then [ResumeDrain(d), CheckDrained(d)] else [CheckDrained(d)]
  }

  predicate IsDraining(s: State, d: Id) {
    HasRole(s, d, Drainer) && d in s.pcs && s.pcs[d] != Idle && s.pcs[d] != Exited
  }

  /** With these policies and callers ShutDownWithDrain returns as it is meant to: once nothing is in
      process, each call under way ends by steps of its own alone, two at the most. */
  lemma WakesReturn(p: Policy, roles: map<Id, Role>, s: State, d: Id)
    requires Wakes(p, roles) && Reachable(p, roles, s) && s.q.processing == {} && IsDraining(s, d)
    ensures |DrainerReturns(s, d)| <= 2
    ensures IsRun(p, s, DrainerReturns(s, d)) && Is(Final(p, s, DrainerReturns(s, d)), d, Exited)
  {
    WakesNeverStuck(p, roles, s);
    ReachableIsSafe(p, roles, s);
    assert Is(s, d, Woken) || Is(s, d, Checking);
    if Is(s, d, Woken) {
      var t := Apply(p, s, ResumeDrain(d));
      StepThenRun(p, t, CheckDrained(d), []);
      StepThenRun(p, s, ResumeDrain(d), [CheckDrained(d)]);
      assert [ResumeDrain(d)] + [CheckDrained(d)] == [ResumeDrain(d), CheckDrained(d)];
    } else {
      StepThenRun(p, s, CheckDrained(d), []);
    }
  }

  /** A worker has an item and two drainers (or one, with b == d) fall asleep. */
  lemma DrainersFallAsleep(p: Policy, roles: map<Id, Role>, w: Id, b: Id, d: Id, x: Item) returns (s: State)
    requires IsWorker(Init(roles), w)
    requires HasRole(Init(roles), b, Drainer) && HasRole(Init(roles), d, Drainer)
    ensures Reachable(p, roles, s) && s.roles == roles && s.q == Queue([], [], {}, {x}, true)
    ensures s.pcs == Init(roles).pcs[w := Holding(x)][b := Parked][d := Parked]
  {
    var s0 := Init(roles);
    InitIsReachable(p, roles);
    var s1 := Apply(p, s0, Add(x, Fresh, None));
    StepIsReachable(p, roles, s0, Add(x, Fresh, None));
    var s2 := Apply(p, s1, Get(w));
    StepIsReachable(p, roles, s1, Get(w));
    var s3 := DrainerFallsAsleep(p, roles, s2, b);
    if b == d {
      s := s3;
    } else {
      s := DrainerFallsAsleep(p, roles, s3, d);
    }
  }

  lemma DrainerFallsAsleep(p: Policy, roles: map<Id, Role>, s: State, d: Id) returns (t: State)
    requires Reachable(p, roles, s) && HasRole(s, d, Drainer) && Is(s, d, Idle) && s.q.processing != {}
    requires s.q.shuttingDown || !AnyParked(s.pcs)
    ensures Reachable(p, roles, t) && t == s.(q := Lanes.ShutDown(s.q), pcs := s.pcs[d := Parked])
  {
    var s1 := Apply(p, s, BeginDrain(d));
    StepIsReachable(p, roles, s, BeginDrain(d));
    t := Apply(p, s1, CheckDrained(d));
    StepIsReachable(p, roles, s1, CheckDrained(d));
  }

  /** The last item is finished clean: as the code stands nobody is woken, and with Signal only
      one of two drainers is. */
  lemma SleepersAreLeftBehind(p: Policy, roles: map<Id, Role>, w: Id) returns (s: State)
    requires IsWorker(Init(roles), w) && !Wakes(p, roles)
    ensures Reachable(p, roles, s) && Stuck(s) && s.q.dirty == {}
  {
    var x: Item :| true;
    var d :| d in roles && roles[d] == Drainer;
    var b := d;
    if p == SignalOnDone {
      b :| b in roles && roles[b] == Drainer && exists c :: c in roles && roles[c] == Drainer && c != b;
      d :| d in roles && roles[d] == Drainer && d != b;
    }
    var s1 := DrainersFallAsleep(p, roles, w, b, d, x);
    var e := Done(w, Fresh, Some(b));
    s := Apply(p, s1, e);
    StepIsReachable(p, roles, s1, e);
    assert HasRole(s, d, Drainer) && Is(s, d, Parked);
  }

  /** Exactly when ShutDownWithDrain cannot be left asleep with nothing in progress: the code as
      written needs that nobody calls it; signalling in every Done allows one caller;
      broadcasting allows any number. */
  lemma DrainersAreWokenIff(p: Policy, roles: map<Id, Role>)
    requires exists w :: IsWorker(Init(roles), w)
    ensures (forall s :: Reachable(p, roles, s) ==> !Stuck(s)) <==> Wakes(p, roles)
  {
    if Wakes(p, roles) {
      forall s | Reachable(p, roles, s) ensures !Stuck(s) {
        WakesNeverStuck(p, roles, s);
      }
    } else {
      var w :| IsWorker(Init(roles), w);
      var s := SleepersAreLeftBehind(p, roles, w);
    }
  }
}
